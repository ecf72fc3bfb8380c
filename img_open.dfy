/** The open layer as the source runs it: step by step, over the process-wide
    error slot, with backend calls, handle closes and heap allocations recorded
    in the state of one `TskImg` object. Each entry point is proved to have
    exactly the effect the functions of ImgOpenSpec and Utf8Spec describe. */
module ImgOpen {
  import opened ImgTypes
  import opened ImgOpenSpec
  import opened Utf8Spec

  /** The POSIX and Cygwin tsk_img_open_utf8 hands its `char` paths on as they
      are; in this model that is a widening of each byte to a code unit. */
  function Widen(p: Utf8Path): TPath
  {
    seq(|p|, k requires 0 <= k < |p| => p[k] as Unit)
  }

  function WidenAll(images: seq<Option<Utf8Path>>): seq<Option<TPath>>
  {
    seq(|images|, k requires 0 <= k < |images| => if images[k].Some? then Some(Widen(images[k].value)) else None)
  }

  predicate AllPresent(images: seq<Option<Utf8Path>>)
  {
    forall k :: 0 <= k < |images| ==> images[k].Some?
  }

  function Values(images: seq<Option<Utf8Path>>): seq<Utf8Path>
    requires AllPresent(images)
  {
    seq(|images|, k requires 0 <= k < |images| => images[k].value)
  }

  /** `b` is a buffer holding the NUL-free units `u` followed by a terminator. */
  predicate HoldsPath(b: array?<Unit>, u: seq<Unit>)
    reads b
  {
    b != null && 0 !in u && |u| < b.Length && b[|u|] == 0 && forall j :: 0 <= j < |u| ==> b[j] == u[j]
  }

  /** The path list tsk_img_open reads out of an array of TSK_TCHAR strings:
      NULL entries stay NULL, every other entry is read up to its NUL. */
  function PathsOf(a: array<array?<Unit>>): (ps: seq<Option<TPath>>)
    reads a, a[..]
    ensures |ps| == a.Length
  {
    seq(a.Length, k requires 0 <= k < a.Length reads a, a[..] =>
      if a[k] == null then None else Some(UntilNul(a[k][..])))
  }

  /** An array whose every buffer holds a path reads back as that path list. */
  lemma PathsOfHeld(a: array<array?<Unit>>, ps: seq<TPath>)
    requires a.Length == |ps| && forall k :: 0 <= k < |ps| ==> HoldsPath(a[k], ps[k])
    ensures PathsOf(a) == Somes(ps)
  {
    forall k | 0 <= k < |ps|
      ensures PathsOf(a)[k] == Some(ps[k])
    {
      UntilNulTerminated(ps[k], a[k][..]);
    }
  }

  class TskImg {
    /** The build configuration. */
    const cfg: Config
    /** tsk_errno, tsk_errstr and tsk_errstr2. */
    var err: ErrSlot
    /** Every backend open call made so far, in order. */
    var calls: seq<Call>
    /** The ids of the handles closed so far, with multiplicity. */
    var closes: multiset<HandleId>
    /** Blocks obtained from tsk_malloc and not freed yet. */
    var live: multiset<object>
    /** How many further tsk_malloc calls succeed. */
    var mallocBudget: nat

    constructor (cfg: Config, mallocBudget: nat)
      ensures this.cfg == cfg && this.mallocBudget == mallocBudget
      ensures err == Cleared && calls == [] && closes == multiset{} && live == multiset{}
    {
      this.cfg := cfg;
      this.mallocBudget := mallocBudget;
      err := Cleared;
      calls := [];
      closes := multiset{};
      live := multiset{};
    }

    /** The call returned `r` and changed the error slot, the call log and the
        close counter as `e` says. */
    twostate predicate Did(e: Effect, new r: Option<Handle>)
      reads this
    {
      r == e.ret && err == e.slot && calls == old(calls) + e.called && closes == old(closes) + e.closed
    }

    /** tsk_error_reset. */
    method ErrorReset()
      modifies this`err
      ensures err == Cleared
    {
      err := Cleared;
    }

    /** Assigning tsk_errno and formatting tsk_errstr; tsk_errstr2 is left alone. */
    method SetError(kind: ErrKind, msg: Msg)
      modifies this`err
      ensures err == ErrSlot(kind, msg, old(err.errstr2))
    {
      err := ErrSlot(kind, msg, err.errstr2);
    }

    /** One call of a backend's open routine, whose outcome is `o`. */
    method Invoke(b: Backend, paths: seq<Option<TPath>>, ssize: uint32, o: Outcome) returns (h: Option<Handle>)
      modifies this`calls, this`err
      ensures calls == old(calls) + [Call(b, paths, ssize)]
      ensures h == HandleOf(o)
      ensures err == if o.Opened? then old(err) else o.slot
    {
      calls := calls + [Call(b, paths, ssize)];
      if o.Opened? {
        h := Some(o.h);
      } else {
        h := None;
        err := o.slot;
      }
    }

    /** A handle's own close routine, `img_info->close(img_info)`. */
    method CloseHandle(h: Handle)
      modifies this`closes
      ensures closes == old(closes) + multiset{h.id}
    {
      closes := closes + multiset{h.id};
    }

    /** tsk_img_close: nothing for NULL, otherwise the handle's close routine. */
    method Close(h: Option<Handle>)
      modifies this`closes
      ensures closes == old(closes) + RetIds(h)
    {
      if h.None? {
        return;
      }
      CloseHandle(h.value);
    }

    /** tsk_img_open. */
    method Open(images: seq<Option<TPath>>, t: ImgType, ssize: uint32, env: Env) returns (r: Option<Handle>)
      modifies this`err, this`calls, this`closes
      ensures Did(OpenEffect(cfg, env, images, t, ssize), r)
    {
      ErrorReset();
      if |images| == 0 || images[0].None? {
        ErrorReset();
        SetError(ImgNoFile, Text("tsk_img_open"));
        assert OpenEffect(cfg, env, images, t, ssize) == Fail(err);
        return None;
      }
      if 0 < ssize < 512 {
        ErrorReset();
        SetError(ImgArg, LessThan512(ssize));
        assert OpenEffect(cfg, env, images, t, ssize) == Fail(err);
        return None;
      }
      if ssize % 512 != 0 {
        ErrorReset();
        SetError(ImgArg, NotMultiple512(ssize));
        assert OpenEffect(cfg, env, images, t, ssize) == Fail(err);
        return None;
      }
      assert Validate(images, ssize).None?;
      if t == Detect {
        r := DetectFormat(images, ssize, env);
        return;
      }
      assert OpenEffect(cfg, env, images, t, ssize) == Explicit(cfg, env, images, t, ssize);
      if t == RawSing {
        // several paths with the single-file raw type: use split
        if |images| > 1 {
          r := Invoke(Split, images, ssize, env.split);
        } else {
          r := Invoke(Raw, [images[0]], ssize, env.raw);
        }
      } else if t == RawSplit {
        // one path with the split type: use raw
        if |images| == 1 {
          r := Invoke(Raw, [images[0]], ssize, env.raw);
        } else {
          r := Invoke(Split, images, ssize, env.split);
        }
      } else if cfg.haveAff && IsAffTag(t) {
        r := Invoke(Aff, images, ssize, env.aff);
      } else if cfg.haveEwf && t == EwfEwf {
        r := Invoke(Ewf, images, ssize, env.ewf);
      } else {
        ErrorReset();
        SetError(ImgUnsupType, UnsupportedTag(t));
        return None;
      }
    }

    /** The HAVE_LIBAFFLIB block of autodetection (lines 125-140). */
    method ProbeAff(images: seq<Option<TPath>>, ssize: uint32, env: Env)
      returns (imgSet: Option<Handle>, matched: Option<string>)
      requires err == Cleared
      modifies this`err, this`calls, this`closes
      ensures calls == old(calls) + (if cfg.haveAff then [Call(Aff, images, ssize)] else [])
      ensures closes == old(closes) + AnyIds(cfg, env)
      ensures imgSet == (if AffMatch(cfg, env) then Some(env.aff.h) else None)
      ensures matched == (if AffMatch(cfg, env) then Some("AFF") else None)
      ensures err == Cleared
    {
      imgSet, matched := None, None;
      if cfg.haveAff {
        var info := Invoke(Aff, images, ssize, env.aff);
        if info.Some? {
          // the generic AFF variant is not accepted by autodetection
          if info.value.itype == AffAny {
            CloseHandle(info.value);
          } else {
            matched := Some("AFF");
            imgSet := info;
          }
        } else {
          ErrorReset();
        }
      }
    }

    /** The HAVE_LIBEWF block of autodetection (lines 142-160); `ambiguous` is its
        early NULL return. */
    method ProbeEwf(images: seq<Option<TPath>>, ssize: uint32, env: Env,
                    imgSet0: Option<Handle>, matched0: Option<string>)
      returns (imgSet: Option<Handle>, matched: Option<string>, ambiguous: bool)
      requires err == Cleared
      requires matched0.Some? <==> imgSet0.Some?
      modifies this`err, this`calls, this`closes
      ensures calls == old(calls) + (if cfg.haveEwf then [Call(Ewf, images, ssize)] else [])
      ensures ambiguous <==> imgSet0.Some? && EwfMatch(cfg, env)
      ensures ambiguous ==>
                closes == old(closes) + multiset{imgSet0.value.id, env.ewf.h.id} &&
                err == ErrSlot(ImgUnkType, EwfOr(matched0.value), Empty)
      ensures !ambiguous ==>
                closes == old(closes) && err == Cleared &&
                imgSet == (if imgSet0.Some? then imgSet0 else if EwfMatch(cfg, env) then Some(env.ewf.h) else None)
    {
      imgSet, matched, ambiguous := imgSet0, matched0, false;
      if cfg.haveEwf {
        var info := Invoke(Ewf, images, ssize, env.ewf);
        if info.Some? {
          if matched.None? {
            matched := Some("EWF");
            imgSet := info;
          } else {
            CloseHandle(imgSet.value);
            CloseHandle(info.value);
            ErrorReset();
            SetError(ImgUnkType, EwfOr(matched.value));
            ambiguous := true;
          }
        } else {
          ErrorReset();
        }
      }
    }

    /** Lines 115-160: try the non-raw formats, AFF then EWF; `ambiguous` is the
        early NULL return when both match. */
    method ProbeOptional(images: seq<Option<TPath>>, ssize: uint32, env: Env)
      returns (imgSet: Option<Handle>, ambiguous: bool)
      requires err == Cleared
      modifies this`err, this`calls, this`closes
      ensures calls == old(calls) + Probes(cfg, images, ssize)
      ensures ambiguous <==> AffMatch(cfg, env) && EwfMatch(cfg, env)
      ensures ambiguous ==>
                closes == old(closes) + multiset{env.aff.h.id, env.ewf.h.id} &&
                err == ErrSlot(ImgUnkType, EwfOr("AFF"), Empty)
      ensures !ambiguous ==>
                closes == old(closes) + AnyIds(cfg, env) && err == Cleared &&
                imgSet == (if AffMatch(cfg, env) then Some(env.aff.h)
                           else if EwfMatch(cfg, env) then Some(env.ewf.h) else None)
    {
      var matched;
      imgSet, matched := ProbeAff(images, ssize, env);
      ghost var afterAff := calls;
      imgSet, matched, ambiguous := ProbeEwf(images, ssize, env, imgSet, matched);
      assert calls == old(calls) + Probes(cfg, images, ssize) by {
        assert calls == afterAff + (if cfg.haveEwf then [Call(Ewf, images, ssize)] else []);
      }
    }

    /** The autodetection branch of tsk_img_open (lines 114-210). */
    method DetectFormat(images: seq<Option<TPath>>, ssize: uint32, env: Env) returns (r: Option<Handle>)
      requires HasFirstPath(images)
      modifies this`err, this`calls, this`closes
      ensures Did(AutoDetect(cfg, env, images, ssize), r)
    {
      ErrorReset();
      var imgSet, ambiguous := ProbeOptional(images, ssize, env);
      if ambiguous {
        return None;
      }
      // one non-raw format matched: use it
      if imgSet.Some? {
        return imgSet;
      }

      ghost var probed := calls;
      r := OpenFallback(images, ssize, env);
      assert calls == old(calls) + AutoDetect(cfg, env, images, ssize).called by {
        assert calls == probed + [Call(Fallback(|images|), ArgsFor(Fallback(|images|), images), ssize)];
      }
    }

    /** Lines 165-209: raw for one path, split for several, and a diagnosis of
        the first path when that backend missed softly too. */
    method OpenFallback(images: seq<Option<TPath>>, ssize: uint32, env: Env) returns (r: Option<Handle>)
      requires HasFirstPath(images) && err == Cleared
      modifies this`err, this`calls
      ensures Did(FallbackEffect(cfg, env, images, ssize, [], multiset{}), r)
    {
      if |images| == 1 {
        var info := Invoke(Raw, [images[0]], ssize, env.raw);
        if info.Some? {
          return info;
        } else if err.errno != NoError {
          return None;
        }
      } else {
        var info := Invoke(Split, images, ssize, env.split);
        if info.Some? {
          return info;
        } else if err.errno != NoError {
          return None;
        }
      }

      // every backend missed softly: say whether the first path can be stat'ed
      var path := images[0].value;
      if env.stat.StatFailed? {
        if cfg.platform != Posix && IsDeviceObject(path) {
          // a Windows device object need not be stat-able
        } else {
          ErrorReset();
          SetError(ImgStat, StatFailure(path, env.stat.os));
          return None;
        }
      }
      err := ErrSlot(ImgUnkType, Empty, Empty);
      return None;
    }

    /** tsk_img_open_sing: a one-element path list. */
    method OpenSing(image: Option<TPath>, t: ImgType, ssize: uint32, env: Env) returns (r: Option<Handle>)
      modifies this`err, this`calls, this`closes
      ensures Did(OpenEffect(cfg, env, [image], t, ssize), r)
    {
      r := Open([image], t, ssize, env);
    }

    /** tsk_malloc of the pointer array: zero-filled, or NULL with an error once
        memory has run out. */
    method MallocPointers(n: nat) returns (a: array?<array?<Unit>>)
      modifies this`live, this`mallocBudget, this`err
      ensures old(mallocBudget) == 0 ==>
                a == null && err == MallocFailure && live == old(live) && mallocBudget == 0
      ensures old(mallocBudget) > 0 ==>
                a != null && fresh(a) && a.Length == n && (forall k :: 0 <= k < n ==> a[k] == null) &&
                err == old(err) && live == old(live) + multiset{a as object} &&
                mallocBudget == old(mallocBudget) - 1
    {
      if mallocBudget == 0 {
        err := MallocFailure;
        return null;
      }
      a := new array?<Unit>[n](_ => null);
      live := live + multiset{a as object};
      mallocBudget := mallocBudget - 1;
    }

    /** tsk_malloc of one wide-character buffer. */
    method MallocUnits(n: nat) returns (b: array?<Unit>)
      modifies this`live, this`mallocBudget, this`err
      ensures old(mallocBudget) == 0 ==>
                b == null && err == MallocFailure && live == old(live) && mallocBudget == 0
      ensures old(mallocBudget) > 0 ==>
                b != null && fresh(b) && b.Length == n &&
                err == old(err) && live == old(live) + multiset{b as object} &&
                mallocBudget == old(mallocBudget) - 1
    {
      if mallocBudget == 0 {
        err := MallocFailure;
        return null;
      }
      b := new Unit[n](_ => 0);
      live := live + multiset{b as object};
      mallocBudget := mallocBudget - 1;
    }

    /** free: only a block that is still allocated may be freed. */
    method Free(o: object)
      requires o in live
      modifies this`live
      ensures live == old(live) - multiset{o}
    {
      live := live - multiset{o};
    }

    /** The cleanup loop of lines 354-357: free every non-NULL entry. The
        entries are the blocks `got`, in order, followed by NULLs. */
    method FreeEntries(a: array<array?<Unit>>, ghost got: seq<object>, ghost rest: multiset<object>)
      requires |got| <= a.Length && live == rest + multiset(got)
      requires forall k :: 0 <= k < |got| ==> a[k] == got[k]
      requires forall k :: |got| <= k < a.Length ==> a[k] == null
      modifies this`live
      ensures live == rest
    {
      var j := 0;
      while j < a.Length
        invariant 0 <= j <= a.Length
        invariant j <= |got| ==> live == rest + multiset(got[j..])
        invariant j > |got| ==> live == rest
      {
        if a[j] != null {
          assert got[j..] == [got[j]] + got[j + 1..];
          Free(a[j]);
        }
        j := j + 1;
      }
    }

    /** One pass of the loop of lines 320-348: allocate a buffer of as many wide
        characters as `image` has bytes, plus one, convert into it and write the
        terminator after the converted units. The buffer is null and the
        conversion result None when the allocation fails. */
    method ConvertOne(images16: array<array?<Unit>>, i: nat, image: Utf8Path, conv: (Utf8Path, nat) -> ConvResult)
      returns (res: Option<ConvResult>)
      requires i < images16.Length && ConverterSound(conv)
      modifies this`live, this`mallocBudget, this`err, images16
      ensures forall k :: 0 <= k < images16.Length && k != i ==> images16[k] == old(images16[k])
      ensures old(mallocBudget) == 0 ==>
                images16[i] == null && res == None && err == MallocFailure && live == old(live) && mallocBudget == 0
      ensures old(mallocBudget) > 0 ==>
                images16[i] != null && fresh(images16[i]) && images16[i].Length == |image| + 1 &&
                res == Some(ConvOf(conv, image)) && mallocBudget == old(mallocBudget) - 1 &&
                live == old(live) + multiset{images16[i] as object}
      ensures old(mallocBudget) > 0 && ConvOf(conv, image).Converted? ==>
                err == old(err) && HoldsPath(images16[i], ConvOf(conv, image).units)
      ensures old(mallocBudget) > 0 && ConvOf(conv, image).ConvFailed? ==>
                err == ErrSlot(ImgConvert, ConvertFailure(image, ConvOf(conv, image).status), old(err.errstr2))
    {
      var ilen := |image|;
      var buf := MallocUnits(ilen + 1);
      images16[i] := buf;
      if buf == null {
        return None;
      }
      var r := conv(image, ilen);
      res := Some(r);
      match r
      case ConvFailed(st) =>
        SetError(ImgConvert, ConvertFailure(image, st));
      case Converted(units) =>
        forall k | 0 <= k < |units| {
          buf[k] := units[k];
        }
        // the terminator lands at index |units| <= ilen, inside the buffer
        buf[|units|] := 0;
    }

    /** The loop of lines 320-348: convert every path into a fresh buffer
        stored in images16, stopping at the first allocation or conversion
        failure. Succeeds exactly when Convert16 does, with every buffer then
        holding its path's conversion and a terminator. */
    method ConvertAll(images16: array<array?<Unit>>, images: seq<Utf8Path>,
                      conv: (Utf8Path, nat) -> ConvResult) returns (failed: bool, ghost got: seq<array<Unit>>)
      requires images16.Length == |images| && forall k :: 0 <= k < images16.Length ==> images16[k] == null
      requires ConverterSound(conv)
      modifies this`live, this`mallocBudget, this`err, images16
      ensures |got| == BufferAllocs(images, conv, old(mallocBudget)) && live == old(live) + multiset(got)
      ensures forall k :: 0 <= k < |got| ==> images16[k] == got[k]
      ensures forall k :: |got| <= k < images16.Length ==> images16[k] == null
      ensures mallocBudget == old(mallocBudget) - BufferAllocs(images, conv, old(mallocBudget))
      ensures failed <==> !Convert16(images, conv, old(mallocBudget)).AllConverted?
      ensures var w := Convert16(images, conv, old(mallocBudget));
              w.AllConverted? ==>
                err == old(err) && forall k :: 0 <= k < |images| ==> HoldsPath(images16[k], w.paths[k])
      ensures var w := Convert16(images, conv, old(mallocBudget));
              w.AllocFailedAt? ==> err == MallocFailure
      ensures var w := Convert16(images, conv, old(mallocBudget));
              w.ConvFailedAt? ==>
                err == ErrSlot(ImgConvert, ConvertFailure(images[w.at], w.status), old(err.errstr2))
    {
      got := [];
      var n := |images|;
      ghost var budget := mallocBudget;
      failed := false;
      var i := 0;
      while i < n
        invariant 0 <= i <= n && i <= budget && mallocBudget == budget - i && err == old(err)
        invariant |got| == i && live == old(live) + multiset(got)
        invariant forall k :: 0 <= k < i ==> images16[k] == got[k]
        invariant ConvertedBefore(images, conv, i)
        invariant forall k :: 0 <= k < i ==> HoldsPath(got[k], ConvOf(conv, images[k]).units)
        invariant forall k :: i <= k < n ==> images16[k] == null
      {
        var res := ConvertOne(images16, i, images[i], conv);
        if res.None? {
          // goto tsk_utf8_cleanup
          AllocStop(images, conv, budget);
          failed := true;
          return;
        }
        ghost var buf: array<Unit> := images16[i];
        got := got + [buf];
        match res.value
        case ConvFailed(st) =>
          ConvStop(images, conv, budget, i);
          failed := true;
          return;
        case Converted(_) =>
          i := i + 1;
      }
    }

    /** Lines 320-358 of the Windows tsk_img_open_utf8, once the pointer array
        is allocated: convert, open on success, then free every buffer the loop
        allocated. `e` is the effect the conversion loop's outcome calls for. */
    method ConvertAndOpen(images16: array<array?<Unit>>, images: seq<Utf8Path>, t: ImgType, ssize: uint32,
                          env: Env, conv: (Utf8Path, nat) -> ConvResult)
      returns (r: Option<Handle>, ghost e: Effect)
      requires images16.Length == |images| && forall k :: 0 <= k < images16.Length ==> images16[k] == null
      requires ConverterSound(conv)
      modifies this`err, this`calls, this`closes, this`live, this`mallocBudget, images16
      ensures live == old(live)
      ensures mallocBudget == old(mallocBudget) - BufferAllocs(images, conv, old(mallocBudget))
      ensures e == LoopEffect(cfg, env, images, t, ssize, Convert16(images, conv, old(mallocBudget)), old(err.errstr2))
      ensures Did(e, r)
    {
      r := None;
      e := LoopEffect(cfg, env, images, t, ssize, Convert16(images, conv, mallocBudget), err.errstr2);
      ghost var got;
      var failed;
      failed, got := ConvertAll(images16, images, conv);
      if !failed {
        PathsOfHeld(images16, Convert16(images, conv, old(mallocBudget)).paths);
        r := Open(PathsOf(images16), t, ssize, env);
      }
      FreeEntries(images16, got, old(live));
    }

    /** The Windows tsk_img_open_utf8 (lines 304-361): allocate the pointer
        array, convert and open, then free the array. */
    method OpenUtf8Win(images: seq<Utf8Path>, t: ImgType, ssize: uint32, env: Env,
                       conv: (Utf8Path, nat) -> ConvResult) returns (r: Option<Handle>)
      requires ConverterSound(conv)
      modifies this`err, this`calls, this`closes, this`live, this`mallocBudget
      ensures live == old(live)
      ensures mallocBudget == old(mallocBudget) - WinAllocs(images, conv, old(mallocBudget))
      ensures Did(WinUtf8Effect(cfg, env, images, t, ssize, conv, old(mallocBudget), old(err.errstr2)), r)
    {
      r := None;
      var images16 := MallocPointers(|images|);
      if images16 == null {
        return;
      }
      ghost var e;
      WinUtf8Loop(cfg, env, images, t, ssize, conv, old(mallocBudget), mallocBudget, err.errstr2);
      r, e := ConvertAndOpen(images16, images, t, ssize, env, conv);
      Free(images16);
    }

    /** tsk_img_open_utf8: the conversion loop on Windows builds, a plain
        hand-over elsewhere. */
    method OpenUtf8(images: seq<Option<Utf8Path>>, t: ImgType, ssize: uint32, env: Env,
                    conv: (Utf8Path, nat) -> ConvResult) returns (r: Option<Handle>)
      requires cfg.platform == Win32 ==> ConverterSound(conv) && AllPresent(images)
      modifies this`err, this`calls, this`closes, this`live, this`mallocBudget
      ensures live == old(live)
      ensures cfg.platform != Win32 ==>
                mallocBudget == old(mallocBudget) &&
                Did(OpenEffect(cfg, env, WidenAll(images), t, ssize), r)
      ensures cfg.platform == Win32 ==>
                mallocBudget == old(mallocBudget) - WinAllocs(Values(images), conv, old(mallocBudget)) &&
                Did(WinUtf8Effect(cfg, env, Values(images), t, ssize, conv, old(mallocBudget), old(err.errstr2)), r)
    {
      if cfg.platform == Win32 {
        r := OpenUtf8Win(Values(images), t, ssize, env, conv);
      } else {
        r := Open(WidenAll(images), t, ssize, env);
      }
    }

    /** tsk_img_open_utf8_sing: a one-element path list. */
    method OpenUtf8Sing(image: Option<Utf8Path>, t: ImgType, ssize: uint32, env: Env,
                        conv: (Utf8Path, nat) -> ConvResult) returns (r: Option<Handle>)
      requires cfg.platform == Win32 ==> ConverterSound(conv) && image.Some?
      modifies this`err, this`calls, this`closes, this`live, this`mallocBudget
      ensures live == old(live)
      ensures cfg.platform != Win32 ==>
                mallocBudget == old(mallocBudget) &&
                Did(OpenEffect(cfg, env, WidenAll([image]), t, ssize), r)
      ensures cfg.platform == Win32 ==>
                mallocBudget == old(mallocBudget) - WinAllocs(Values([image]), conv, old(mallocBudget)) &&
                Did(WinUtf8Effect(cfg, env, Values([image]), t, ssize, conv, old(mallocBudget), old(err.errstr2)), r)
    {
      r := OpenUtf8([image], t, ssize, env, conv);
    }
  }
}
