/** Values shared by the model of the disk-image open layer (tsk3/img/img_open.c):
    paths, image type tags, backend handles, the process-wide error slot and the
    abstract outcomes of the code the open layer calls but does not contain. */
module ImgTypes {

  datatype Option<+T> = None | Some(value: T)

  /** The `unsigned int a_ssize` argument. */
  newtype uint32 = x: int | 0 <= x < 0x1_0000_0000

  /** One TSK_TCHAR code unit: a byte on POSIX and Cygwin builds, a 16-bit
      wchar_t on Windows builds. */
  newtype Unit = x: int | 0 <= x < 0x1_0000

  newtype Byte = x: int | 0 <= x < 0x100

  /** A TSK_TCHAR path: the code units before its NUL terminator. */
  type TPath = seq<Unit>

  /** A UTF-8 path: the bytes before its NUL terminator, so none of them is NUL. */
  type Utf8Path = s: seq<Byte> | 0 !in s

  /** TSK_IMG_TYPE_ENUM. `OtherTag` stands for any value of the enumeration's
      underlying integer that names none of the listed enumerators. */
  datatype ImgType =
    | Detect | RawSing | RawSplit
    | AffAff | AffAfd | AffAfm | AffAny
    | EwfEwf
    | OtherTag(code: int)

  predicate IsRawTag(t: ImgType) { t == RawSing || t == RawSplit }

  predicate IsAffTag(t: ImgType) { t == AffAff || t == AffAfd || t == AffAfm || t == AffAny }

  /** The four format-specific open routines: raw_open, split_open, aff_open, ewf_open. */
  datatype Backend = Raw | Split | Aff | Ewf

  type HandleId = nat

  /** A TSK_IMG_INFO pointer: which object it is, and its `itype` field. */
  datatype Handle = Handle(id: HandleId, itype: ImgType)

  /** Values of tsk_errno. `Reported` is any error a backend reports on its own. */
  datatype ErrKind =
    | NoError
    | ImgNoFile | ImgArg | ImgUnsupType | ImgUnkType | ImgStat | ImgConvert
    | AuxMalloc
    | Reported(code: nat)

  /** Contents of tsk_errstr / tsk_errstr2, kept as a tag and its arguments
      instead of the formatted bytes. */
  datatype Msg =
    | Empty
    | Text(s: string)
    | LessThan512(ssize: uint32)
    | NotMultiple512(ssize: uint32)
    | EwfOr(other: string)
    | UnsupportedTag(tag: ImgType)
    | StatFailure(path: TPath, os: string)
    | ConvertFailure(image: Utf8Path, status: ConvStatus)
    | OutOfMemory

  /** The process-wide last-error state: tsk_errno, tsk_errstr, tsk_errstr2. */
  datatype ErrSlot = ErrSlot(errno: ErrKind, errstr: Msg, errstr2: Msg)

  /** The state tsk_error_reset leaves behind. */
  const Cleared := ErrSlot(NoError, Empty, Empty)

  /** What one backend open call does: it returns a handle and leaves the error
      slot alone, or it returns NULL and leaves the error slot as `slot`.
      A NULL with `slot.errno == NoError` is a soft miss ("not this format"),
      a NULL with any other errno a hard error. */
  datatype Outcome = Opened(h: Handle) | Miss(slot: ErrSlot)

  function HandleOf(o: Outcome): Option<Handle>
  {
    if o.Opened? then Some(o.h) else None
  }

  /** The result of TSTAT on the first path, with strerror(errno) on failure. */
  datatype StatResult = StatOk | StatFailed(os: string)

  /** What each external call made by one tsk_img_open would produce. Each of them
      is made at most once per call. */
  datatype Env = Env(aff: Outcome, ewf: Outcome, raw: Outcome, split: Outcome, stat: StatResult)
  {
    function OutcomeOf(b: Backend): Outcome
    {
      match b
      case Raw => raw
      case Split => split
      case Aff => aff
      case Ewf => ewf
    }
  }

  /** Build configuration: TSK_WIN32 / __CYGWIN__, HAVE_LIBAFFLIB, HAVE_LIBEWF. */
  datatype Platform = Posix | Cygwin | Win32

  datatype Config = Config(platform: Platform, haveAff: bool, haveEwf: bool)

  /** One invocation of a backend, with the paths and sector size it was given. */
  datatype Call = Call(backend: Backend, paths: seq<Option<TPath>>, ssize: uint32)

  /** TSKConversionResult values other than TSKconversionOK. */
  datatype ConvStatus = SourceExhausted | TargetExhausted | SourceIllegal

  /** One tsk_UTF8toUTF16 call: the UTF-16 units it wrote, or its failure status. */
  datatype ConvResult = Converted(units: seq<Unit>) | ConvFailed(status: ConvStatus)

  /** The converter is given a target of `cap` units and never writes past it;
      a path without NUL bytes converts to units without a NUL. */
  ghost predicate ConverterSound(conv: (Utf8Path, nat) -> ConvResult)
  {
    forall p: Utf8Path, cap: nat :: conv(p, cap).Converted? ==>
      |conv(p, cap).units| <= cap && 0 !in conv(p, cap).units
  }
}
