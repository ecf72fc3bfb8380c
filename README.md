# Disk-image open layer of The Sleuth Kit, in Dafny

This project models `tsk3/img/img_open.c`, the entry points that turn a list of
disk-image paths into an open image handle:

- `tsk_img_open` checks its arguments and dispatches an explicitly requested
  image type to its backend: `raw_open`, `split_open`, `aff_open` or `ewf_open`.
  For `TSK_IMG_TYPE_DETECT` it probes AFF and then EWF, when those libraries
  are compiled in. It closes the generic "any AFF" handle. It reports a double
  match as "EWF or AFF". It then falls back to raw (one path) or split
  (several paths). When every backend misses softly, it diagnoses the first
  path with `stat`.
- `tsk_img_open_sing` and `tsk_img_open_utf8_sing` wrap a single path.
- `tsk_img_open_utf8` converts every UTF-8 path to UTF-16 on Windows builds.
  It stops at the first allocation or conversion failure and frees every
  buffer on every path. On other builds it passes the paths through.
- `tsk_img_close` calls a non-NULL handle's own close routine.

The model has three layers:

- `ImgTypes` holds the data:
  - paths, type tags and handles;
  - the process-wide error slot (`tsk_errno`, `tsk_errstr`, `tsk_errstr2`);
  - the build configuration (platform, `HAVE_LIBAFFLIB`, `HAVE_LIBEWF`);
  - `Env`, the abstract outcomes of the code the layer calls (each backend's
    open routine and `TSTAT`).
- `ImgOpenSpec` and `Utf8Spec` describe one call as a value, an `Effect`. An
  `Effect` holds the handle returned, the error slot left behind, the backend
  calls made (in order) and the handles closed. These modules also prove
  properties about the `Effect`: the validation and dispatch rules, how
  autodetection ends, and that no handle is leaked or closed twice.
- `ImgOpen` is the imperative model. Class `TskImg` holds the error slot, the
  call log, the closed handles, the set of live heap blocks and the number of
  `tsk_malloc` calls that will still succeed. Its methods follow the source's
  branches and calls in order. Each entry point is proved to change that state
  exactly as the matching `Effect` says.
  - The Windows conversion keeps its pointer array and its path buffers as
    Dafny `array`s. The loop writes each converted path and its terminator
    into its buffer. The paths handed to `tsk_img_open` are read back out of
    those buffers, each up to its first NUL.
  - Every `free` is proved to release a live block.
  - Every entry point is proved to leave the set of live blocks as it found it.

Three details of the code matter for the error slot:

- A conversion failure in the Windows `tsk_img_open_utf8` (lines 340-345) sets
  `tsk_errno` and `tsk_errstr` without `tsk_error_reset`. `tsk_errstr2` keeps
  whatever it held before. `Utf8Spec.LoopEffect` carries that old value.
- An explicitly requested type (lines 217-251) returns what its backend
  returns. A backend's soft miss therefore yields NULL with `tsk_errno` still
  0; nothing turns it into an error.
- The "every backend missed" verdict (lines 206-208) overwrites the error slot
  field by field instead of resetting it first. The result is the same.

## Model

| member | source | states |
|---|---|---|
| ImgOpenSpec.Validate | tsk3/img/img_open.c:83-102 | arguments pass exactly when there is a first path and the sector size is 0 or a multiple of 512 no smaller than 512; otherwise the first failing check's errno and message, in source order |
| ImgOpenSpec.Dispatch | tsk3/img/img_open.c:217-258 | each explicit tag reaches its backend and only that one: raw for a raw tag with one path, split for a raw tag with several, AFF only with AFF compiled in, EWF only with EWF compiled in; any other tag reaches none |
| ImgOpenSpec.Explicit | tsk3/img/img_open.c:217-260 | an explicit open calls at most one backend and closes nothing; a handle comes back with the slot as the reset at line 81 left it, given that a backend returning a handle leaves the slot alone |
| ImgOpenSpec.StatVerdict | tsk3/img/img_open.c:183-209 | the stat error is reported exactly when stat fails and the path is not a Windows device object on a Windows or Cygwin build; otherwise the slot is "unknown type" with empty strings |
| ImgOpenSpec.FallbackEffect | tsk3/img/img_open.c:165-209 | the fallback calls raw for one path and split for several, after the probes; it returns that backend's handle, with the slot as the reset at line 122 left it, and it returns NULL exactly when it leaves an error |
| ImgOpenSpec.AutoDetect | tsk3/img/img_open.c:114-210 | autodetection returns NULL exactly when it leaves an error. A double match closes both handles and reports "EWF or AFF". A single match is returned without the fallback. A generic-AFF handle is always closed. With no match, raw or split is called after the probes |
| ImgOpenSpec.AutoDetectBalanced | tsk3/img/img_open.c:114-210 | every handle autodetection obtains is either returned or closed, exactly once |
| ImgOpenSpec.OpenEffect | tsk3/img/img_open.c:73-261 | an invalid argument fails before any backend is called; a returned handle comes with the slot as the resets at lines 81 and 122 left it (backends that return a handle and close routines are taken to leave the slot alone); DETECT means autodetection; an explicit tag calls only its dispatched backend and returns its result |
| ImgOpenSpec.OpenBalanced | tsk3/img/img_open.c:73-261 | whatever the arguments and backend outcomes, tsk_img_open leaks no handle and closes none twice |
| ImgOpenSpec.ProbesOpened | tsk3/img/img_open.c:125-160 | the handles the AFF and EWF probes hand back are exactly those of the compiled-in libraries that opened the input |
| Utf8Spec.Convert16 | tsk3/img/img_open.c:320-348 | the loop succeeds exactly when every path gets a buffer and converts, and then yields each path's conversion in order; otherwise it names the first path whose allocation or conversion failed, after which no path was touched |
| Utf8Spec.AllocStop | tsk3/img/img_open.c:328-332 | when allocations run out at a path, the loop stops there with an allocation failure, having allocated one buffer per earlier path |
| Utf8Spec.ConvStop | tsk3/img/img_open.c:337-346 | the first path that fails to convert stops the loop with that conversion status, after one buffer per path up to and including it |
| Utf8Spec.BufferAllocs | tsk3/img/img_open.c:320-348 | the loop allocates no more buffers than there are paths or allocations available, and one per path when every path converts |
| Utf8Spec.WinAllocs | tsk3/img/img_open.c:313-348 | the Windows wrapper performs at least one allocation exactly when one is available, and at most one more than there are paths |
| Utf8Spec.WinUtf8Outcomes | tsk3/img/img_open.c:304-361 | the Windows wrapper fails with the allocator's error when the pointer array cannot be allocated; on a conversion failure it reports the offending path and status; it opens only when every path converted, and then exactly as tsk_img_open does on the converted list |
| Utf8Spec.WinUtf8Balanced | tsk3/img/img_open.c:304-361 | the Windows wrapper leaks no image handle and closes none twice |
| ImgOpen.TskImg.Open | tsk3/img/img_open.c:73-261 | the step-by-step tsk_img_open returns, and changes the error slot, call log and closed handles, exactly as OpenEffect says |
| ImgOpen.TskImg.ProbeAff | tsk3/img/img_open.c:125-140 | the AFF probe keeps a specific AFF match, closes a generic-AFF handle, and leaves the error slot cleared |
| ImgOpen.TskImg.ProbeEwf | tsk3/img/img_open.c:142-160 | the EWF probe takes an EWF match when nothing matched before; when something did, it closes both handles and reports the ambiguity |
| ImgOpen.TskImg.ProbeOptional | tsk3/img/img_open.c:115-160 | the probes call the compiled-in libraries in order; the result is ambiguous exactly when both match; otherwise only the generic-AFF handle is closed and the error slot is clear |
| ImgOpen.TskImg.DetectFormat | tsk3/img/img_open.c:114-210 | the autodetection branch has exactly the effect AutoDetect describes |
| ImgOpen.TskImg.OpenFallback | tsk3/img/img_open.c:165-209 | the raw/split fallback and the stat diagnosis have exactly the effect FallbackEffect describes |
| ImgOpen.TskImg.OpenSing | tsk3/img/img_open.c:46-52 | tsk_img_open_sing behaves as tsk_img_open on a one-element list |
| ImgOpen.TskImg.Close | tsk3/img/img_open.c:458-465 | tsk_img_close closes a non-NULL handle once and does nothing for NULL |
| ImgOpen.TskImg.MallocPointers | tsk3/img/img_open.c:313-318 | the pointer array is NULL with the allocator's error when memory has run out, otherwise a fresh all-NULL array of one entry per path that is now live |
| ImgOpen.TskImg.ConvertOne | tsk3/img/img_open.c:326-347 | one pass stores a fresh buffer of path-length plus one units in images16[i], touching no other entry; the buffer then holds the converted units followed by the terminator, or the conversion error is recorded |
| ImgOpen.TskImg.ConvertAll | tsk3/img/img_open.c:320-348 | the loop fails exactly when Convert16 does, with the matching error; on success every entry of images16 holds its path's conversion followed by the terminator; it allocates BufferAllocs buffers, and the array holds exactly those, followed by NULLs |
| ImgOpen.TskImg.FreeEntries | tsk3/img/img_open.c:353-357 | the cleanup loop frees exactly the buffers the conversion loop allocated, each once |
| ImgOpen.TskImg.ConvertAndOpen | tsk3/img/img_open.c:320-358 | conversion, opening the paths read out of images16, and cleanup together have the effect LoopEffect gives for Convert16's outcome, and leave no buffer allocated |
| ImgOpen.PathsOfHeld | tsk3/img/img_open.c:347-350 | an array whose buffers each hold a NUL-free path and its terminator reads back, NUL by NUL, as exactly those paths |
| Utf8Spec.UntilNul | tsk3/img/img_open.c:347-350 | the string read out of a buffer is the prefix before its first NUL, or the whole buffer when it has none |
| Utf8Spec.UntilNulTerminated | tsk3/img/img_open.c:347 | a buffer holding a NUL-free path and then the terminator reads back as exactly that path, whatever follows |
| ImgOpen.TskImg.OpenUtf8Win | tsk3/img/img_open.c:304-361 | the Windows tsk_img_open_utf8 has exactly the effect WinUtf8Effect describes, uses WinAllocs allocations, and frees everything it allocated |
| ImgOpen.TskImg.OpenUtf8 | tsk3/img/img_open.c:300-365 | on Windows builds the conversion wrapper; elsewhere exactly tsk_img_open on the same paths, with no allocation |
| ImgOpen.TskImg.OpenUtf8Sing | tsk3/img/img_open.c:277-283 | tsk_img_open_utf8_sing behaves as tsk_img_open_utf8 on a one-element list |

## Left out

- The backends (`raw_open`, `split_open`, `aff_open`, `ewf_open`) and each
  handle's close routine are not part of this model. Their behaviour is an
  `Env` outcome (a handle, or NULL with the error slot they leave), and a close
  is recorded by handle id.
- `TSTAT` and `strerror(errno)` are not modelled either; their result is the
  `Env` field `stat`.
- `tsk_UTF8toUTF16` is a function parameter. It is assumed never to write past
  the end of the target it is given, and never to produce a NUL unit from a
  path, which has no NUL byte (`ConverterSound`).
- `tsk_malloc` is modelled by a count of allocations that will still succeed;
  its zero-filling is taken as given. Byte sizes (`sizeof(wchar_t *)`,
  `sizeof(wchar_t)`) are not modelled.
- The `tsk_verbose` logging (lines 105-108 and 188-192) writes only to stderr
  and is left out.
- The `#if 0` block `tsk_img_open_utf16` (lines 368-448) is never compiled.
- `snprintf` formatting and truncation to `TSK_ERRSTR_L` are not modelled.
  Messages are kept as a tag plus its arguments.
- `num_img` is the length of the path list. A negative count, or a count that
  disagrees with the array, cannot be expressed.
- Backends that return a handle are taken to leave `tsk_errno`, `tsk_errstr`
  and `tsk_errstr2` as they found them. A handle's close routine (lines 130,
  149-150) is taken never to write to them either. The source does not reset
  the slot after either (lines 162-163, 167-168, 175-176, 260). A close that
  set an error would make the `tsk_errno` tests at lines 170 and 178 skip the
  stat diagnosis; the model does not capture that.
- `aff_open` is given only the path array, without `num_img` (lines 126 and
  243). The model records the whole list as its argument.
- Tags are values of a datatype. Numeric values outside the enumeration are
  represented by `OtherTag`.
- Paths are the code units before their NUL terminator.
- The Windows `tsk_img_open_utf8` calls `strlen` on every path. `OpenUtf8` and
  `OpenUtf8Sing` therefore require every path to be present on Windows.
- Concurrent use of the single error slot is outside this model. The source
  assumes single-threaded use.
