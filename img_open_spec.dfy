/** What one call of tsk_img_open does, as a value: the handle it returns, the
    error slot it leaves, the backends it invokes (in order) and the handles it
    closes. The class in module ImgOpen performs the same steps one at a time and
    is proved to produce exactly this effect. */
module ImgOpenSpec {
  import opened ImgTypes

  /** The observable effect of one open call. */
  datatype Effect = Effect(ret: Option<Handle>, slot: ErrSlot, called: seq<Call>, closed: multiset<HandleId>)

  /** An early NULL return that invokes and closes nothing. */
  function Fail(slot: ErrSlot): Effect
  {
    Effect(None, slot, [], multiset{})
  }

  function RetIds(r: Option<Handle>): multiset<HandleId>
  {
    if r.Some? then multiset{r.value.id} else multiset{}
  }

  /** The ids of the handles that the invoked backends hand back. */
  function OpenedIds(env: Env, calls: seq<Call>): multiset<HandleId>
  {
    if calls == [] then multiset{}
    else RetIds(HandleOf(env.OutcomeOf(calls[0].backend))) + OpenedIds(env, calls[1..])
  }

  lemma {:induction false} OpenedIdsAppend(env: Env, a: seq<Call>, b: seq<Call>)
    ensures OpenedIds(env, a + b) == OpenedIds(env, a) + OpenedIds(env, b)
  {
    if a == [] {
      assert a + b == b;
    } else {
      assert (a + b)[1..] == a[1..] + b;
      OpenedIdsAppend(env, a[1..], b);
    }
  }

  lemma OpenedIdsSingle(env: Env, c: Call)
    ensures OpenedIds(env, [c]) == RetIds(HandleOf(env.OutcomeOf(c.backend)))
  {
    assert [c][1..] == [];
  }

  /** Every handle a backend produced during the call is either returned to the
      caller or closed, and closed once. */
  predicate Balanced(env: Env, e: Effect)
  {
    e.closed + RetIds(e.ret) == OpenedIds(env, e.called)
  }

  /** The sector sizes tsk_img_open accepts: 0 (backend default) or a positive
      multiple of 512 no smaller than 512. */
  predicate ValidSectorSize(s: uint32)
  {
    s == 0 || (s >= 512 && s % 512 == 0)
  }

  predicate HasFirstPath(images: seq<Option<TPath>>)
  {
    |images| > 0 && images[0].Some?
  }

  /** Argument checks of lines 83-102, in source order. */
  function Validate(images: seq<Option<TPath>>, ssize: uint32): (r: Option<ErrSlot>)
    ensures r.None? <==> HasFirstPath(images) && ValidSectorSize(ssize)
    ensures !HasFirstPath(images) ==> r == Some(ErrSlot(ImgNoFile, Text("tsk_img_open"), Empty))
    ensures HasFirstPath(images) && 0 < ssize < 512 ==> r == Some(ErrSlot(ImgArg, LessThan512(ssize), Empty))
    ensures HasFirstPath(images) && ssize > 512 && !ValidSectorSize(ssize) ==>
              r == Some(ErrSlot(ImgArg, NotMultiple512(ssize), Empty))
  {
    if |images| == 0 || images[0].None? then Some(ErrSlot(ImgNoFile, Text("tsk_img_open"), Empty))
    else if 0 < ssize < 512 then Some(ErrSlot(ImgArg, LessThan512(ssize), Empty))
    else if ssize % 512 != 0 then Some(ErrSlot(ImgArg, NotMultiple512(ssize), Empty))
    else None
  }

  /** The paths a backend is given: raw_open takes images[0] alone; split_open and
      ewf_open take the count and the whole list; aff_open takes only the array
      pointer, without the count, and is modelled as seeing the whole list. */
  function ArgsFor(b: Backend, images: seq<Option<TPath>>): seq<Option<TPath>>
    requires |images| > 0
  {
    if b == Raw then [images[0]] else images
  }

  /** The switch of lines 217-258: the backend an explicitly requested type is
      handed to, or None for the `default` branch. */
  function Dispatch(cfg: Config, t: ImgType, n: nat): (b: Option<Backend>)
    requires t != Detect && n > 0
    ensures b == Some(Raw) <==> IsRawTag(t) && n == 1
    ensures b == Some(Split) <==> IsRawTag(t) && n > 1
    ensures b == Some(Aff) <==> cfg.haveAff && IsAffTag(t)
    ensures b == Some(Ewf) <==> cfg.haveEwf && t == EwfEwf
  {
    match t
    case RawSing => if n > 1 then Some(Split) else Some(Raw)
    case RawSplit => if n == 1 then Some(Raw) else Some(Split)
    case AffAff | AffAfd | AffAfm | AffAny => if cfg.haveAff then Some(Aff) else None
    case EwfEwf => if cfg.haveEwf then Some(Ewf) else None
    case _ => None
  }

  /** Explicit-type open: call the dispatched backend and return what it returns. */
  function Explicit(cfg: Config, env: Env, images: seq<Option<TPath>>, t: ImgType, ssize: uint32): (e: Effect)
    requires t != Detect && |images| > 0
    ensures e.closed == multiset{} && |e.called| <= 1
    ensures e.ret.Some? ==> e.slot == Cleared
  {
    match Dispatch(cfg, t, |images|)
    case None => Fail(ErrSlot(ImgUnsupType, UnsupportedTag(t), Empty))
    case Some(b) =>
      var o := env.OutcomeOf(b);
      Effect(HandleOf(o), if o.Opened? then Cleared else o.slot, [Call(b, ArgsFor(b, images), ssize)], multiset{})
  }

  /** The Windows device-object prefix \\.\ */
  const DevicePrefix: TPath := [92, 92, 46, 92]

  predicate IsDeviceObject(p: TPath)
  {
    |p| >= 4 && p[..4] == DevicePrefix
  }

  /** Lines 183-209: the error left after every backend missed softly. */
  function StatVerdict(cfg: Config, stat: StatResult, path: TPath): (s: ErrSlot)
    ensures s.errno == ImgStat <==>
              stat.StatFailed? && !(cfg.platform != Posix && IsDeviceObject(path))
    ensures s.errno == ImgStat ==> s == ErrSlot(ImgStat, StatFailure(path, stat.os), Empty)
    ensures s.errno != ImgStat ==> s == ErrSlot(ImgUnkType, Empty, Empty)
  {
    if stat.StatFailed? && !(cfg.platform != Posix && IsDeviceObject(path)) then
      ErrSlot(ImgStat, StatFailure(path, stat.os), Empty)
    else
      ErrSlot(ImgUnkType, Empty, Empty)
  }

  /** AFF recognised the input as one specific AFF variant. */
  predicate AffMatch(cfg: Config, env: Env)
  {
    cfg.haveAff && env.aff.Opened? && env.aff.h.itype != AffAny
  }

  /** AFF opened the input only as the generic "any AFF" variant. */
  predicate AffAnyOnly(cfg: Config, env: Env)
  {
    cfg.haveAff && env.aff.Opened? && env.aff.h.itype == AffAny
  }

  predicate EwfMatch(cfg: Config, env: Env)
  {
    cfg.haveEwf && env.ewf.Opened?
  }

  /** The speculative probes, in priority order, for the compiled-in libraries. */
  function Probes(cfg: Config, images: seq<Option<TPath>>, ssize: uint32): seq<Call>
  {
    (if cfg.haveAff then [Call(Aff, images, ssize)] else []) +
    (if cfg.haveEwf then [Call(Ewf, images, ssize)] else [])
  }

  /** The generic-AFF handle that autodetection opens and then discards. */
  function AnyIds(cfg: Config, env: Env): multiset<HandleId>
  {
    if AffAnyOnly(cfg, env) then multiset{env.aff.h.id} else multiset{}
  }

  /** The handles the compiled-in probes hand back. */
  function ProbeIds(cfg: Config, env: Env): multiset<HandleId>
  {
    (if cfg.haveAff then RetIds(HandleOf(env.aff)) else multiset{}) +
    (if cfg.haveEwf then RetIds(HandleOf(env.ewf)) else multiset{})
  }

  lemma ProbeIdsByMatch(cfg: Config, env: Env)
    ensures AffMatch(cfg, env) && EwfMatch(cfg, env) ==> ProbeIds(cfg, env) == multiset{env.aff.h.id, env.ewf.h.id}
    ensures AffMatch(cfg, env) && !EwfMatch(cfg, env) ==> ProbeIds(cfg, env) == multiset{env.aff.h.id}
    ensures !AffMatch(cfg, env) && EwfMatch(cfg, env) ==>
              ProbeIds(cfg, env) == AnyIds(cfg, env) + multiset{env.ewf.h.id}
    ensures !AffMatch(cfg, env) && !EwfMatch(cfg, env) ==> ProbeIds(cfg, env) == AnyIds(cfg, env)
  {
  }

  lemma ProbesOpened(cfg: Config, env: Env, images: seq<Option<TPath>>, ssize: uint32)
    ensures OpenedIds(env, Probes(cfg, images, ssize)) == ProbeIds(cfg, env)
  {
    var ca, ce := Call(Aff, images, ssize), Call(Ewf, images, ssize);
    OpenedIdsSingle(env, ca);
    OpenedIdsSingle(env, ce);
    if cfg.haveAff && cfg.haveEwf {
      assert Probes(cfg, images, ssize) == [ca] + [ce];
      OpenedIdsAppend(env, [ca], [ce]);
    } else if cfg.haveAff {
      assert Probes(cfg, images, ssize) == [ca];
    } else if cfg.haveEwf {
      assert Probes(cfg, images, ssize) == [ce];
    } else {
      assert Probes(cfg, images, ssize) == [];
    }
  }

  /** The last-resort backend: raw for one path, split for several. */
  function Fallback(n: nat): Backend
  {
    if n == 1 then Raw else Split
  }

  /** Lines 165-209: no specific AFF or EWF match, so raw (one path) or split
      (several) is tried, and a soft miss there is diagnosed by StatVerdict. */
  function FallbackEffect(cfg: Config, env: Env, images: seq<Option<TPath>>, ssize: uint32,
                          probes: seq<Call>, discarded: multiset<HandleId>): (e: Effect)
    requires HasFirstPath(images)
    ensures e.called == probes + [Call(Fallback(|images|), ArgsFor(Fallback(|images|), images), ssize)]
    ensures e.closed == discarded
    ensures e.ret == HandleOf(env.OutcomeOf(Fallback(|images|)))
    ensures e.ret.None? <==> e.slot.errno != NoError
    ensures e.ret.Some? ==> e.slot == Cleared
  {
    var b := Fallback(|images|);
    var o := env.OutcomeOf(b);
    var called := probes + [Call(b, ArgsFor(b, images), ssize)];
    if o.Opened? then Effect(Some(o.h), Cleared, called, discarded)
    else if o.slot.errno != NoError then Effect(None, o.slot, called, discarded)
    else Effect(None, StatVerdict(cfg, env.stat, images[0].value), called, discarded)
  }

  /** Autodetection, lines 114-210. */
  function AutoDetect(cfg: Config, env: Env, images: seq<Option<TPath>>, ssize: uint32): (e: Effect)
    requires HasFirstPath(images)
    ensures e.ret.None? <==> e.slot.errno != NoError
    ensures AffAnyOnly(cfg, env) ==> env.aff.h.id in e.closed
    ensures AffMatch(cfg, env) || EwfMatch(cfg, env) ==> e.called == Probes(cfg, images, ssize)
    ensures !AffMatch(cfg, env) && !EwfMatch(cfg, env) ==>
              e.called == Probes(cfg, images, ssize) +
                          [Call(Fallback(|images|), ArgsFor(Fallback(|images|), images), ssize)]
    ensures AffMatch(cfg, env) && EwfMatch(cfg, env) ==>
              e.ret == None && e.slot == ErrSlot(ImgUnkType, EwfOr("AFF"), Empty) &&
              e.closed == multiset{env.aff.h.id, env.ewf.h.id}
    ensures AffMatch(cfg, env) && !EwfMatch(cfg, env) ==> e.ret == Some(env.aff.h) && e.closed == multiset{}
    ensures !AffMatch(cfg, env) && EwfMatch(cfg, env) ==> e.ret == Some(env.ewf.h)
    ensures !AffMatch(cfg, env) && !EwfMatch(cfg, env) ==>
              var o := env.OutcomeOf(Fallback(|images|));
              (o.Opened? ==> e.ret == Some(o.h)) &&
              (o.Miss? && o.slot.errno != NoError ==> e.ret == None && e.slot == o.slot) &&
              (o.Miss? && o.slot.errno == NoError ==>
                 e.ret == None && e.slot == StatVerdict(cfg, env.stat, images[0].value))
  {
    var probes := Probes(cfg, images, ssize);
    var discarded := AnyIds(cfg, env);
    if AffMatch(cfg, env) && EwfMatch(cfg, env) then
      Effect(None, ErrSlot(ImgUnkType, EwfOr("AFF"), Empty), probes, multiset{env.aff.h.id, env.ewf.h.id})
    else if AffMatch(cfg, env) then
      Effect(Some(env.aff.h), Cleared, probes, multiset{})
    else if EwfMatch(cfg, env) then
      Effect(Some(env.ewf.h), Cleared, probes, discarded)
    else
      FallbackEffect(cfg, env, images, ssize, probes, discarded)
  }

  /** Autodetection hands every handle it obtains either to the caller or to
      that handle's close routine, once: the discarded generic AFF handle and both
      handles of an ambiguous match are closed, the chosen one is returned. */
  lemma AutoDetectBalanced(cfg: Config, env: Env, images: seq<Option<TPath>>, ssize: uint32)
    requires HasFirstPath(images)
    ensures Balanced(env, AutoDetect(cfg, env, images, ssize))
  {
    ProbesOpened(cfg, env, images, ssize);
    ProbeIdsByMatch(cfg, env);
    if !AffMatch(cfg, env) && !EwfMatch(cfg, env) {
      var c := Call(Fallback(|images|), ArgsFor(Fallback(|images|), images), ssize);
      OpenedIdsAppend(env, Probes(cfg, images, ssize), [c]);
      OpenedIdsSingle(env, c);
    }
  }

  /** tsk_img_open, lines 73-261. */
  function OpenEffect(cfg: Config, env: Env, images: seq<Option<TPath>>, t: ImgType, ssize: uint32): (e: Effect)
    ensures Validate(images, ssize).Some? ==> e == Fail(Validate(images, ssize).value)
    ensures e.ret.Some? ==> e.slot == Cleared
    ensures Validate(images, ssize).None? && t == Detect ==> e == AutoDetect(cfg, env, images, ssize)
    ensures Validate(images, ssize).None? && t != Detect ==>
              var d := Dispatch(cfg, t, |images|);
              e.closed == multiset{} &&
              (d.None? ==> e == Fail(ErrSlot(ImgUnsupType, UnsupportedTag(t), Empty))) &&
              (d.Some? ==> e.called == [Call(d.value, ArgsFor(d.value, images), ssize)] &&
                           e.ret == HandleOf(env.OutcomeOf(d.value)) &&
                           (env.OutcomeOf(d.value).Miss? ==> e.slot == env.OutcomeOf(d.value).slot))
  {
    match Validate(images, ssize)
    case Some(slot) => Fail(slot)
    case None =>
      if t == Detect then AutoDetect(cfg, env, images, ssize)
      else Explicit(cfg, env, images, t, ssize)
  }

  /** Whatever the arguments and the backends' outcomes, no handle obtained by
      tsk_img_open is leaked or closed twice: each is returned or closed once. */
  lemma OpenBalanced(cfg: Config, env: Env, images: seq<Option<TPath>>, t: ImgType, ssize: uint32)
    ensures Balanced(env, OpenEffect(cfg, env, images, t, ssize))
  {
    if Validate(images, ssize).None? {
      if t == Detect {
        AutoDetectBalanced(cfg, env, images, ssize);
      } else {
        var d := Dispatch(cfg, t, |images|);
        if d.Some? {
          OpenedIdsSingle(env, Call(d.value, ArgsFor(d.value, images), ssize));
        }
      }
    }
  }
}
