/** internal/config/validate.go: the rules a filter list must meet. */
module Validate {
  import opened Wrappers
  import opened Address
  import opened View
  import opened Model

  /** What the text parsers of the standard library make of a string. */
  datatype Parsers = Parsers(
    prefix: string -> Option<Prefix>, time: string -> Option<int>, ip: string -> bool)

  const MAX_QUERY_LOG := 4096

  predicate NameStart(c: char) { 'a' <= c <= 'z' || '0' <= c <= '9' }

  /** [a-z0-9][a-z0-9._-]{0,62} */
  predicate ValidName(s: string)
  {
    1 <= |s| <= 63 && NameStart(s[0]) &&
    forall i :: 1 <= i < |s| ==> NameStart(s[i]) || s[i] in "._-"
  }

  predicate ValidPolls(v: ViewSpec)
  {
    && (v.minPoll.Some? ==> -6 <= v.minPoll.value <= 17)
    && (v.maxPoll.Some? ==> -6 <= v.maxPoll.value <= 17)
    && (v.minPoll.Some? && v.maxPoll.Some? ==> v.minPoll.value <= v.maxPoll.value)
  }

  /** The required and forbidden keys of each mode. */
  predicate ValidMode(ps: Parsers, v: ViewSpec)
  {
    match v.mode
    case FollowReal => v.offset == 0 && Blank(v.absolute) && Blank(v.freezeAt) && v.rate.None? && Blank(v.epoch)
    case Offset => Blank(v.absolute) && Blank(v.freezeAt) && v.rate.None? && Blank(v.epoch)
    case Absolute => v.offset == 0 && !Blank(v.absolute) && ps.time(v.absolute).Some? &&
                     Blank(v.freezeAt) && v.rate.None? && Blank(v.epoch)
    case Freeze => v.offset == 0 && Blank(v.absolute) && !Blank(v.freezeAt) && ps.time(v.freezeAt).Some? &&
                   v.rate.None? && Blank(v.epoch)
    case Rate => v.offset == 0 && Blank(v.absolute) && Blank(v.freezeAt) &&
                 v.rate.Some? && -100.0 <= v.rate.value <= 100.0 &&
                 (!Blank(v.epoch) ==> ps.time(v.epoch).Some?)
    case OtherMode(_) => false
  }

  predicate ValidView(ps: Parsers, v: ViewSpec)
  {
    && v.offset != MIN_DURATION
    && ValidMode(ps, v)
    && (v.leap.OtherLeap? ==> v.leap.name == "")
    && 1 <= v.stratum <= 16
    && v.rootDelay >= 0 && v.rootDispersion >= 0 && v.jitter >= 0
    && ValidPolls(v)
    && (|v.refId| > 4 ==> ps.ip(v.refId))
  }

  predicate HasRoute(ps: Parsers, f: Filter, p: Prefix)
  {
    f.enabled && exists j :: 0 <= j < |f.Cidrs()| && ps.prefix(f.Cidrs()[j]) == Some(p)
  }

  predicate UniqueNames(fs: seq<Filter>)
  {
    forall i, j :: 0 <= i < j < |fs| ==> fs[i].name != fs[j].name
  }

  predicate ValidFilter(ps: Parsers, f: Filter)
  {
    && ValidName(f.name)
    && (f.enabled ==> f.Cidrs() != [])
    && (forall j :: 0 <= j < |f.Cidrs()| ==> ps.prefix(f.Cidrs()[j]).Some?)
    && ValidView(ps, f.view)
  }

  /** A list that passes: good filters, unique names, and both default routes
      among the enabled ones. */
  predicate ValidFilters(ps: Parsers, fs: seq<Filter>)
  {
    && (forall i :: 0 <= i < |fs| ==> ValidFilter(ps, fs[i]))
    && UniqueNames(fs)
    && (exists i :: 0 <= i < |fs| && HasRoute(ps, fs[i], V4_DEFAULT))
    && (exists i :: 0 <= i < |fs| && HasRoute(ps, fs[i], V6_DEFAULT))
  }

  /** The keys that belong to one mode each. */
  datatype ModeKey = OffsetKey | AbsoluteKey | FreezeKey | RateKey | EpochKey

  datatype Amount = RootDelay | RootDispersion | Jitter

  /** What can be wrong with a view. */
  datatype Complaint =
    | OffsetTooFar | NoMode | UnknownMode | Missing(key: ModeKey) | Unparsed(key: ModeKey) | RateTooFar
    | Forbidden(key: ModeKey) | BadLeap | BadStratum | Negative(amount: Amount)
    | MinPollOutside | MaxPollOutside | PollsCrossed | BadRefId

  predicate Present(v: ViewSpec, key: ModeKey)
  {
    match key
    case OffsetKey => v.offset != 0
    case AbsoluteKey => !Blank(v.absolute)
    case FreezeKey => !Blank(v.freezeAt)
    case RateKey => v.rate.Some?
    case EpochKey => !Blank(v.epoch)
  }

  /** The mode takes the key. */
  predicate Takes(m: Mode, key: ModeKey)
  {
    match m
    case FollowReal => false
    case Offset => key.OffsetKey?
    case Absolute => key.AbsoluteKey?
    case Freeze => key.FreezeKey?
    case Rate => key.RateKey? || key.EpochKey?
    case OtherMode(_) => false
  }

  predicate Parses(ps: Parsers, v: ViewSpec, key: ModeKey)
  {
    match key
    case AbsoluteKey => ps.time(v.absolute).Some?
    case FreezeKey => ps.time(v.freezeAt).Some?
    case EpochKey => ps.time(v.epoch).Some?
    case _ => true
  }

  function AmountOf(v: ViewSpec, a: Amount): int
  {
    match a
    case RootDelay => v.rootDelay
    case RootDispersion => v.rootDispersion
    case Jitter => v.jitter
  }

  /** Which complaints there are; beyond an unknown mode the view is not looked at. */
  predicate Complains(ps: Parsers, v: ViewSpec, c: Complaint)
  {
    match c
    case OffsetTooFar => v.offset == MIN_DURATION
    case NoMode => v.mode == OtherMode("")
    case UnknownMode => v.mode.OtherMode? && v.mode.name != ""
    case _ => !v.mode.OtherMode? && ComplainsKnown(ps, v, c)
  }

  predicate ComplainsKnown(ps: Parsers, v: ViewSpec, c: Complaint)
  {
    match c
    case Missing(key) => Takes(v.mode, key) && !key.OffsetKey? && !key.EpochKey? && !Present(v, key)
    case Unparsed(key) => Takes(v.mode, key) && Present(v, key) && !Parses(ps, v, key)
    case RateTooFar => v.mode.Rate? && v.rate.Some? && !(-100.0 <= v.rate.value <= 100.0)
    case Forbidden(key) => Present(v, key) && !Takes(v.mode, key)
    case BadLeap => v.leap.OtherLeap? && v.leap.name != ""
    case BadStratum => !(1 <= v.stratum <= 16)
    case Negative(a) => AmountOf(v, a) < 0
    case MinPollOutside => v.minPoll.Some? && !(-6 <= v.minPoll.value <= 17)
    case MaxPollOutside => v.maxPoll.Some? && !(-6 <= v.maxPoll.value <= 17)
    case PollsCrossed => v.minPoll.Some? && v.maxPoll.Some? && v.minPoll.value > v.maxPoll.value
    case BadRefId => |v.refId| > 4 && !ps.ip(v.refId)
    case _ => false
  }

  /** Whether a complaint is about the keys of the mode. */
  predicate AboutMode(c: Complaint) { c.Missing? || c.Unparsed? || c.RateTooFar? || c.Forbidden? }

  /** Every key the mode does not take. */
  method ForbidKeys(v: ViewSpec) returns (cs: seq<Complaint>)
    ensures forall c :: c in cs <==> c.Forbidden? && Present(v, c.key) && !Takes(v.mode, c.key)
  {
    hide Blank;
    cs := [];
    if v.offset != 0 && !v.mode.Offset? {
      cs := cs + [Forbidden(OffsetKey)];
    }
    if !Blank(v.absolute) && !v.mode.Absolute? {
      cs := cs + [Forbidden(AbsoluteKey)];
    }
    if !Blank(v.freezeAt) && !v.mode.Freeze? {
      cs := cs + [Forbidden(FreezeKey)];
    }
    if v.rate.Some? && !v.mode.Rate? {
      cs := cs + [Forbidden(RateKey)];
    }
    if !Blank(v.epoch) && !v.mode.Rate? {
      cs := cs + [Forbidden(EpochKey)];
    }
    TakesEach(v.mode);
    hide Takes;
    forall c
      ensures c in cs <==> c.Forbidden? && Present(v, c.key) && !Takes(v.mode, c.key)
    {
      if c.Forbidden? {
        match c.key
        case OffsetKey =>
        case AbsoluteKey =>
        case FreezeKey =>
        case RateKey =>
        case EpochKey =>
      }
    }
  }

  lemma TakesEach(m: Mode)
    ensures Takes(m, OffsetKey) <==> m.Offset?
    ensures Takes(m, AbsoluteKey) <==> m.Absolute?
    ensures Takes(m, FreezeKey) <==> m.Freeze?
    ensures Takes(m, RateKey) <==> m.Rate?
    ensures Takes(m, EpochKey) <==> m.Rate?
  {
  }

  method ValidateMode(ps: Parsers, v: ViewSpec) returns (cs: seq<Complaint>)
    requires !v.mode.OtherMode?
    ensures forall c :: c in cs <==> AboutMode(c) && ComplainsKnown(ps, v, c)
  {
    hide Blank;
    cs := ForbidKeys(v);
    match v.mode {
      case FollowReal =>
      case Offset =>
      case Absolute =>
        if Blank(v.absolute) {
          cs := cs + [Missing(AbsoluteKey)];
        } else if ps.time(v.absolute).None? {
          cs := cs + [Unparsed(AbsoluteKey)];
        }
      case Freeze =>
        if Blank(v.freezeAt) {
          cs := cs + [Missing(FreezeKey)];
        } else if ps.time(v.freezeAt).None? {
          cs := cs + [Unparsed(FreezeKey)];
        }
      case Rate =>
        if v.rate.None? {
          cs := cs + [Missing(RateKey)];
        } else if v.rate.value < -100.0 || v.rate.value > 100.0 {
          cs := cs + [RateTooFar];
        }
        if !Blank(v.epoch) && ps.time(v.epoch).None? {
          cs := cs + [Unparsed(EpochKey)];
        }
    }
  }

  method ValidateAmounts(v: ViewSpec) returns (cs: seq<Complaint>)
    ensures forall c :: c in cs <==> c.Negative? && AmountOf(v, c.amount) < 0
  {
    cs := [];
    if v.rootDelay < 0 {
      cs := cs + [Negative(RootDelay)];
    }
    if v.rootDispersion < 0 {
      cs := cs + [Negative(RootDispersion)];
    }
    if v.jitter < 0 {
      cs := cs + [Negative(Jitter)];
    }
  }

  /** Whether a complaint is about the poll bounds. */
  predicate AboutPolls(c: Complaint) { c.MinPollOutside? || c.MaxPollOutside? || c.PollsCrossed? }

  method ValidatePolls(ps: Parsers, v: ViewSpec) returns (cs: seq<Complaint>)
    ensures forall c :: c in cs <==> AboutPolls(c) && ComplainsKnown(ps, v, c)
  {
    cs := [];
    if v.minPoll.Some? && (v.minPoll.value < -6 || v.minPoll.value > 17) {
      cs := cs + [MinPollOutside];
    }
    if v.maxPoll.Some? && (v.maxPoll.value < -6 || v.maxPoll.value > 17) {
      cs := cs + [MaxPollOutside];
    }
    if v.minPoll.Some? && v.maxPoll.Some? && v.minPoll.value > v.maxPoll.value {
      cs := cs + [PollsCrossed];
    }
  }

  method ValidateRest(ps: Parsers, v: ViewSpec) returns (cs: seq<Complaint>)
    ensures forall c :: c in cs <==> !AboutMode(c) && ComplainsKnown(ps, v, c)
  {
    cs := [];
    if v.leap.OtherLeap? && v.leap.name != "" {
      cs := cs + [BadLeap];
    }
    if v.stratum < 1 || v.stratum > 16 {
      cs := cs + [BadStratum];
    }
    var amounts := ValidateAmounts(v);
    var polls := ValidatePolls(ps, v);
    cs := cs + amounts + polls;
    if |v.refId| > 4 && !ps.ip(v.refId) {
      cs := cs + [BadRefId];
    }
  }

  method ValidateView(ps: Parsers, v: ViewSpec) returns (cs: seq<Complaint>)
    ensures forall c :: c in cs <==> Complains(ps, v, c)
  {
    hide ComplainsKnown, AboutMode;
    cs := [];
    if v.offset == MIN_DURATION {
      cs := [OffsetTooFar];
    }
    if v.mode.OtherMode? {
      cs := cs + [if v.mode.name == "" then NoMode else UnknownMode];
      return;
    }
    var mode := ValidateMode(ps, v);
    var rest := ValidateRest(ps, v);
    KnownOnly(ps, v);
    cs := cs + mode + rest;
  }

  lemma KnownOnly(ps: Parsers, v: ViewSpec)
    ensures forall c :: ComplainsKnown(ps, v, c) ==> !c.OffsetTooFar? && !c.NoMode? && !c.UnknownMode?
  {
  }

  /** There is nothing to complain about exactly in the valid views. */
  lemma NothingToComplain(ps: Parsers, v: ViewSpec)
    ensures (forall c :: !Complains(ps, v, c)) <==> ValidView(ps, v)
  {
    if forall c :: !Complains(ps, v, c) {
      assert !Complains(ps, v, OffsetTooFar) && !Complains(ps, v, NoMode) && !Complains(ps, v, UnknownMode);
      assert !Complains(ps, v, BadLeap) && !Complains(ps, v, BadStratum) && !Complains(ps, v, BadRefId);
      assert !Complains(ps, v, Negative(RootDelay)) && !Complains(ps, v, Negative(RootDispersion));
      assert !Complains(ps, v, Negative(Jitter));
      assert !Complains(ps, v, MinPollOutside) && !Complains(ps, v, MaxPollOutside) && !Complains(ps, v, PollsCrossed);
      ModeIsValid(ps, v);
    }
    hide Blank;
  }

  lemma ModeIsValid(ps: Parsers, v: ViewSpec)
    requires forall c :: !Complains(ps, v, c)
    ensures ValidMode(ps, v)
  {
    hide Blank;
    assert !Complains(ps, v, NoMode) && !Complains(ps, v, UnknownMode) && !Complains(ps, v, RateTooFar);
    forall key
      ensures Present(v, key) ==> Takes(v.mode, key)
      ensures Takes(v.mode, key) && Present(v, key) ==> Parses(ps, v, key)
      ensures Takes(v.mode, key) && !key.OffsetKey? && !key.EpochKey? ==> Present(v, key)
    {
      assert !Complains(ps, v, Forbidden(key)) && !Complains(ps, v, Missing(key)) && !Complains(ps, v, Unparsed(key));
    }
    assert Present(v, OffsetKey) ==> Takes(v.mode, OffsetKey);
    assert Present(v, AbsoluteKey) ==> Takes(v.mode, AbsoluteKey);
    assert Present(v, FreezeKey) ==> Takes(v.mode, FreezeKey);
    assert Present(v, RateKey) ==> Takes(v.mode, RateKey);
    assert Present(v, EpochKey) ==> Takes(v.mode, EpochKey);
  }

  /** One line of the validation report. */
  datatype Violation =
    | EmptyName(i: nat) | BadName(i: nat) | DuplicateName(i: nat, first: nat)
    | NoCidrs(i: nat) | BadCidr(i: nat, j: nat) | BadView(i: nat, c: Complaint) | NoCatchAll

  /** Which lines the report must hold; a duplicate cites the first filter of
      that name. */
  predicate Violates(ps: Parsers, fs: seq<Filter>, v: Violation)
  {
    if v.NoCatchAll? then
      !((exists i :: 0 <= i < |fs| && HasRoute(ps, fs[i], V4_DEFAULT)) &&
        (exists i :: 0 <= i < |fs| && HasRoute(ps, fs[i], V6_DEFAULT)))
    else v.i < |fs| && ViolatesAt(ps, fs, v)
  }

  predicate ViolatesAt(ps: Parsers, fs: seq<Filter>, v: Violation)
    requires !v.NoCatchAll? && v.i < |fs|
  {
    var f := fs[v.i];
    match v
    case EmptyName(_) => Blank(f.name)
    case BadName(_) => !Blank(f.name) && !ValidName(f.name)
    case DuplicateName(i, first) => ValidName(f.name) && first < i && FirstNamed(fs, f.name, first)
    case NoCidrs(_) => f.enabled && f.Cidrs() == []
    case BadCidr(_, j) => j < |f.Cidrs()| && ps.prefix(f.Cidrs()[j]).None?
    case BadView(_, c) => Complains(ps, f.view, c)
  }

  predicate FirstNamed(fs: seq<Filter>, name: string, first: nat)
  {
    first < |fs| && fs[first].name == name && forall k :: 0 <= k < first ==> fs[k].name != name
  }

  /** names records, for each acceptable name met so far, who had it first. */
  ghost predicate Indexes(names: map<string, nat>, fs: seq<Filter>, n: nat)
    requires n <= |fs|
  {
    && (forall s :: s in names ==> ValidName(s) && names[s] < n && FirstNamed(fs, s, names[s]))
    && forall k :: 0 <= k < n && ValidName(fs[k].name) ==> fs[k].name in names
  }

  method ValidateFilters(ps: Parsers, fs: seq<Filter>) returns (vs: seq<Violation>)
    ensures forall v :: v in vs <==> Violates(ps, fs, v)
  {
    hide Complains, HasRoute, Blank, ValidName;
    var names: map<string, nat> := map[];
    var v4, v6 := false, false;
    vs := [];
    for i := 0 to |fs|
      invariant Indexes(names, fs, i)
      invariant forall v :: v in vs <==> !v.NoCatchAll? && v.i < i && ViolatesAt(ps, fs, v)
      invariant v4 <==> exists k :: 0 <= k < i && HasRoute(ps, fs[k], V4_DEFAULT)
      invariant v6 <==> exists k :: 0 <= k < i && HasRoute(ps, fs[k], V6_DEFAULT)
    {
      var more;
      more, names := ValidateName(ps, fs, i, names);
      vs := vs + more;
      if fs[i].enabled && |fs[i].Cidrs()| == 0 {
        vs := vs + [NoCidrs(i)];
      }
      var bad, d4, d6 := ValidateCidrs(ps, fs[i], i);
      vs := vs + bad;
      v4, v6 := v4 || d4, v6 || d6;
      var cs := ValidateView(ps, fs[i].view);
      vs := vs + BadViews(i, cs);
    }
    if !v4 || !v6 {
      vs := vs + [NoCatchAll];
    }
  }

  function BadViews(i: nat, cs: seq<Complaint>): (vs: seq<Violation>)
    ensures forall v :: v in vs <==> v.BadView? && v.i == i && v.c in cs
  {
    if cs == [] then [] else [BadView(i, cs[0])] + BadViews(i, cs[1..])
  }

  method ValidateName(ps: Parsers, fs: seq<Filter>, i: nat, names: map<string, nat>)
    returns (vs: seq<Violation>, names': map<string, nat>)
    requires i < |fs| && Indexes(names, fs, i)
    ensures Indexes(names', fs, i + 1)
    ensures forall v :: v in vs <==>
              (v.EmptyName? || v.BadName? || v.DuplicateName?) && v.i == i && ViolatesAt(ps, fs, v)
  {
    var name := fs[i].name;
    vs, names' := [], names;
    if ValidName(name) {
      NameIsNotBlank(name);
    }
    if Blank(name) {
      vs := [EmptyName(i)];
    } else if !ValidName(name) {
      vs := [BadName(i)];
    } else if name in names {
      vs := [DuplicateName(i, names[name])];
    } else {
      names' := names[name := i];
    }
  }

  method ValidateCidrs(ps: Parsers, f: Filter, i: nat) returns (vs: seq<Violation>, v4: bool, v6: bool)
    ensures forall v :: v in vs <==> v.BadCidr? && v.i == i && v.j < |f.Cidrs()| && ps.prefix(f.Cidrs()[v.j]).None?
    ensures v4 <==> HasRoute(ps, f, V4_DEFAULT)
    ensures v6 <==> HasRoute(ps, f, V6_DEFAULT)
  {
    vs, v4, v6 := [], false, false;
    for j := 0 to |f.Cidrs()|
      invariant forall v :: v in vs <==> v.BadCidr? && v.i == i && v.j < j && ps.prefix(f.Cidrs()[v.j]).None?
      invariant v4 <==> f.enabled && exists k :: 0 <= k < j && ps.prefix(f.Cidrs()[k]) == Some(V4_DEFAULT)
      invariant v6 <==> f.enabled && exists k :: 0 <= k < j && ps.prefix(f.Cidrs()[k]) == Some(V6_DEFAULT)
    {
      var p := ps.prefix(f.Cidrs()[j]);
      if p.None? {
        vs := vs + [BadCidr(i, j)];
      } else if f.enabled {
        if p.value == V4_DEFAULT {
          v4 := true;
        }
        if p.value == V6_DEFAULT {
          v6 := true;
        }
      }
    }
  }

  /** A list whose names all pass but are not unique has a first duplicate. */
  lemma {:induction false} FirstOfName(fs: seq<Filter>, name: string, k: nat) returns (first: nat)
    requires k < |fs| && fs[k].name == name
    ensures first <= k && FirstNamed(fs, name, first)
  {
    first := k;
    if j :| 0 <= j < k && fs[j].name == name {
      first := FirstOfName(fs, name, j);
    }
  }

  lemma NameIsNotBlank(s: string)
    requires ValidName(s)
    ensures !Blank(s)
  {
    assert s[0] in s && !Space(s[0]);
  }

  lemma DuplicateIsReported(ps: Parsers, fs: seq<Filter>, i: nat, j: nat) returns (v: Violation)
    requires i < j < |fs| && fs[i].name == fs[j].name && ValidName(fs[j].name)
    ensures Violates(ps, fs, v)
  {
    hide ValidName, Blank;
    var first := FirstOfName(fs, fs[i].name, i);
    v := DuplicateName(j, first);
  }

  lemma FilterPasses(ps: Parsers, fs: seq<Filter>, i: nat)
    requires i < |fs| && forall v :: !Violates(ps, fs, v)
    ensures ValidFilter(ps, fs[i])
  {
    hide ValidName, Blank, Complains, ValidView;
    assert !Violates(ps, fs, EmptyName(i)) && !Violates(ps, fs, BadName(i)) && !Violates(ps, fs, NoCidrs(i));
    forall c
      ensures !Complains(ps, fs[i].view, c)
    {
      assert !Violates(ps, fs, BadView(i, c));
    }
    NothingToComplain(ps, fs[i].view);
    forall j | 0 <= j < |fs[i].Cidrs()|
      ensures ps.prefix(fs[i].Cidrs()[j]).Some?
    {
      assert !Violates(ps, fs, BadCidr(i, j));
    }
  }

  /** The report is empty exactly for the valid lists. */
  lemma NothingToReport(ps: Parsers, fs: seq<Filter>)
    ensures (forall v :: !Violates(ps, fs, v)) <==> ValidFilters(ps, fs)
  {
    hide ValidName, Blank, Complains, ValidView, HasRoute;
    if forall v :: !Violates(ps, fs, v) {
      assert !Violates(ps, fs, NoCatchAll);
      forall i | 0 <= i < |fs|
        ensures ValidFilter(ps, fs[i])
      {
        FilterPasses(ps, fs, i);
      }
      forall i, j | 0 <= i < j < |fs|
        ensures fs[i].name != fs[j].name
      {
        if fs[i].name == fs[j].name {
          var v := DuplicateIsReported(ps, fs, i, j);
        }
      }
    }
    if ValidFilters(ps, fs) {
      forall v
        ensures !Violates(ps, fs, v)
      {
        if !v.NoCatchAll? && v.i < |fs| {
          NameIsNotBlank(fs[v.i].name);
          NothingToComplain(ps, fs[v.i].view);
        }
      }
    }
  }
}
