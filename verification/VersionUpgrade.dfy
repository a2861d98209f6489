/**
 Major upgrades: which version may be asked for under a feature compatibility version (FCV), and
 how the two move together. Versions are compared as strings, character by character.
 */
module VersionUpgrade {
  import opened Options

  /** Go's `<` on strings. */
  predicate Less(a: string, b: string) {
    b != [] && (a == [] || a[0] < b[0] || (a[0] == b[0] && Less(a[1..], b[1..])))
  }

  /** CanUpgradeVersion. */
  predicate CanUpgradeVersion(fcv: string, target: string) {
    if !Less(fcv, target) then false
    else if fcv == "3.6" then target == "4.0"
    else if fcv == "4.0" then target == "4.2"
    else if fcv == "4.2" then target == "4.4"
    else if fcv == "4.4" then target == "5.0"
    else if fcv == "5.0" then target == "6.0"
    else if fcv == "6.0" then target == "7.0"
    else if fcv == "7.0" then target == "8.0"
    else if fcv == "8.0" then target == "8.3"
    else false
  }

  /** The releases, in order. */
  const CHAIN: seq<string> := ["3.6", "4.0", "4.2", "4.4", "5.0", "6.0", "7.0", "8.0", "8.3"]

  /** `target` is the single successor of `fcv`. */
  ghost predicate Succeeds(fcv: string, target: string) {
    exists k :: 0 <= k < |CHAIN| - 1 && CHAIN[k] == fcv && CHAIN[k + 1] == target
  }

  lemma DigitsLess(a: string, b: string)
    requires |a| == 3 && |b| == 3
    ensures Less(a, b) <==> a[0] < b[0] || (a[0] == b[0] && (a[1] < b[1] || (a[1] == b[1] && a[2] < b[2])))
  {
    assert Less(a[1..], b[1..]) <==> a[1] < b[1] || (a[1] == b[1] && Less(a[1..][1..], b[1..][1..]));
    assert a[1..][1..] == [a[2]] && b[1..][1..] == [b[2]];
    assert Less([a[2]], [b[2]]) <==> a[2] < b[2] by {
      assert [a[2]][1..] == [] && [b[2]][1..] == [];
    }
  }

  lemma {:induction false} LessIrreflexive(a: string)
    ensures !Less(a, a)
  {
    if a == [] {
    } else {
      LessIrreflexive(a[1..]);
    }
  }

  /** Strings that do not sort either way are equal. */
  lemma {:induction false} LessIsTotal(a: string, b: string)
    ensures a == b || Less(a, b) || Less(b, a)
  {
    if a != [] && b != [] && a[0] == b[0] {
      LessIsTotal(a[1..], b[1..]);
      assert a == [a[0]] + a[1..] && b == [b[0]] + b[1..];
    }
  }

  lemma {:induction false} LessIsTransitive(a: string, b: string, c: string)
    requires Less(a, b) && Less(b, c)
    ensures Less(a, c)
  {
    if a != [] && b[0] == a[0] == c[0] {
      LessIsTransitive(a[1..], b[1..], c[1..]);
    }
  }

  /** Each release sorts after the one before, so the string guard excludes no step of the chain. */
  lemma ChainSorts(k: nat)
    requires k < |CHAIN| - 1
    ensures Less(CHAIN[k], CHAIN[k + 1])
  {
    DigitsLess(CHAIN[k], CHAIN[k + 1]);
  }

  lemma {:induction false} ChainSortsFar(i: nat, j: nat)
    requires i < j < |CHAIN|
    ensures Less(CHAIN[i], CHAIN[j])
    decreases j
  {
    ChainSorts(j - 1);
    if i < j - 1 {
      ChainSortsFar(i, j - 1);
      LessIsTransitive(CHAIN[i], CHAIN[j - 1], CHAIN[j]);
    }
  }

  lemma ChainDistinct(i: nat, j: nat)
    requires i < |CHAIN| && j < |CHAIN| && CHAIN[i] == CHAIN[j]
    ensures i == j
  {
    LessIrreflexive(CHAIN[i]);
    if i < j {
      ChainSortsFar(i, j);
    } else if j < i {
      ChainSortsFar(j, i);
    }
  }

  /** For arbitrary strings, an upgrade is allowed exactly from a release to its single successor. */
  lemma UpgradesAreSuccessors(fcv: string, target: string)
    ensures CanUpgradeVersion(fcv, target) <==> Succeeds(fcv, target)
  {
    if CanUpgradeVersion(fcv, target) {
      AllowedStep(fcv, target);
    }
    if Succeeds(fcv, target) {
      var k :| 0 <= k < |CHAIN| - 1 && CHAIN[k] == fcv && CHAIN[k + 1] == target;
      ChainSorts(k);
      ChainStepAllowed(k);
    }
  }

  lemma AllowedStep(fcv: string, target: string)
    requires CanUpgradeVersion(fcv, target)
    ensures Succeeds(fcv, target)
  {
    assert CHAIN[0] == "3.6" && CHAIN[1] == "4.0" && CHAIN[2] == "4.2" && CHAIN[3] == "4.4";
    assert CHAIN[4] == "5.0" && CHAIN[5] == "6.0" && CHAIN[6] == "7.0" && CHAIN[7] == "8.0" && CHAIN[8] == "8.3";
  }

  /** The release at each position, told from the others by its digits. */
  lemma ChainStepAllowed(k: nat)
    requires k < |CHAIN| - 1 && Less(CHAIN[k], CHAIN[k + 1])
    ensures CanUpgradeVersion(CHAIN[k], CHAIN[k + 1])
  {
    var f := CHAIN[k];
    assert "3.6"[0] == '3' && "4.0"[0] == '4' && "4.2"[2] == '2' && "4.4"[2] == '4' && "5.0"[0] == '5';
    assert "6.0"[0] == '6' && "7.0"[0] == '7' && "8.0"[2] == '0' && "8.3"[2] == '3';
  }

  lemma SuccessorIsUnique(fcv: string, a: string, b: string)
    requires Succeeds(fcv, a) && Succeeds(fcv, b)
    ensures a == b
  {
    var i :| 0 <= i < |CHAIN| - 1 && CHAIN[i] == fcv && CHAIN[i + 1] == a;
    var j :| 0 <= j < |CHAIN| - 1 && CHAIN[j] == fcv && CHAIN[j + 1] == b;
    ChainDistinct(i, j);
  }

  // ---------------------------------------------------------------- versions as strings

  function Digit(n: nat): char
    requires n < 10
  {
    '0' + n as char
  }

  /** "%d" of a number that is not negative. */
  function Decimal(n: nat): (s: string)
    ensures |s| > 0 && forall i :: 0 <= i < |s| ==> '0' <= s[i] <= '9'
  {
    if n < 10 then [Digit(n)] else Decimal(n / 10) + [Digit(n % 10)]
  }

  /** A parsed version: one segment or more. */
  type Version = v: seq<nat> | |v| > 0 witness [0]

  /** MajorMinor: "%d.%d" of the first two segments, the second zero if there is none. */
  function MajorMinor(v: Version): string {
    Decimal(v[0]) + "." + Decimal(if |v| == 1 then 0 else v[1])
  }

  lemma {:induction false} DecimalInjective(n: nat, m: nat)
    requires Decimal(n) == Decimal(m)
    ensures n == m
  {
    var a, b := Decimal(n), Decimal(m);
    assert a[|a| - 1] == Digit(n % 10) && b[|b| - 1] == Digit(m % 10);
    assert n % 10 == m % 10;
    if n >= 10 && m >= 10 {
      assert a[..|a| - 1] == Decimal(n / 10) && b[..|b| - 1] == Decimal(m / 10);
      DecimalInjective(n / 10, m / 10);
    }
  }

  /** The text tells major and minor apart, whatever their number of digits. */
  lemma MajorMinorInjective(v: Version, w: Version)
    requires MajorMinor(v) == MajorMinor(w)
    ensures v[0] == w[0] && (if |v| == 1 then 0 else v[1]) == (if |w| == 1 then 0 else w[1])
  {
    var a, b, s := Decimal(v[0]), Decimal(w[0]), MajorMinor(v);
    assert s[|a|] == '.' && MajorMinor(w)[|b|] == '.';
    assert forall i :: 0 <= i < |a| ==> s[i] == a[i];
    assert forall i :: 0 <= i < |b| ==> s[i] == b[i];
    assert |a| == |b| && a == s[..|a|] && b == s[..|b|];
    DecimalInjective(v[0], w[0]);
    assert s[|a| + 1..] == Decimal(if |v| == 1 then 0 else v[1]);
    assert s[|b| + 1..] == Decimal(if |w| == 1 then 0 else w[1]);
    DecimalInjective(if |v| == 1 then 0 else v[1], if |w| == 1 then 0 else w[1]);
  }

  // ---------------------------------------------------------------- requests

  /** spec.upgradeOptions.apply: nothing or a strategy, or a version, with a strategy after a dash or none. */
  datatype Apply = Strategy | Explicit(version: Option<Version>, strategy: string)

  datatype Request = NoChange | Granted(strategy: string, version: Version) | Refused | Unreadable

  /** status.mongoVersion: empty while the cluster starts, or text that may not parse. */
  datatype Reported = Starting | Garbled | Running(version: Version)

  function MajorUpgradeRequested(apply: Apply, reported: Reported, fcv: string): Request {
    if apply.Strategy? then NoChange
    else if apply.version.None? then Unreadable
    else if reported.Starting? then Granted(apply.strategy, apply.version.value)
    else if reported.Garbled? then Unreadable
    else
      var newMM, mongoMM := MajorMinor(apply.version.value), MajorMinor(reported.version);
      if Less(mongoMM, newMM) then
        if CanUpgradeVersion(fcv, newMM) then Granted(apply.strategy, apply.version.value) else Refused
      else if Less(newMM, mongoMM) then
        if newMM == fcv then Granted(apply.strategy, apply.version.value) else Refused
      else NoChange
  }

  /**
   What a running cluster is granted, without the string order: the successor of its FCV or its FCV
   itself, on the right side of what it runs; nothing is done only if major and minor are the same.
   */
  lemma GrantedMeaning(version: Version, strategy: string, reported: Version, fcv: string)
    ensures var q := MajorUpgradeRequested(Explicit(Some(version), strategy), Running(reported), fcv);
            && (q.Granted? ==> q.version == version && q.strategy == strategy)
            && (q.Granted? ==> Succeeds(fcv, MajorMinor(version)) || MajorMinor(version) == fcv)
            && (q.NoChange? <==> MajorMinor(version) == MajorMinor(reported))
  {
    UpgradesAreSuccessors(fcv, MajorMinor(version));
    LessIsTotal(MajorMinor(version), MajorMinor(reported));
    LessIrreflexive(MajorMinor(reported));
  }

  /** How every request is answered, from any state and with any text: each answer exactly when it is due. */
  lemma RequestExactly(apply: Apply, reported: Reported, fcv: string)
    ensures var q := MajorUpgradeRequested(apply, reported, fcv);
            var explicit := apply.Explicit? && apply.version.Some?;
            && (q.NoChange? <==>
                  apply.Strategy?
                  || (explicit && reported.Running? && MajorMinor(apply.version.value) == MajorMinor(reported.version)))
            && (q.Unreadable? <==> apply.Explicit? && (apply.version.None? || reported.Garbled?))
            && (q.Granted? <==>
                  && explicit && !reported.Garbled?
                  && (reported.Running? ==> Reachable(apply.version.value, reported.version, fcv)))
            && (q.Granted? ==> q.version == apply.version.value && q.strategy == apply.strategy)
  {
    if apply.Explicit? && apply.version.Some? && reported.Running? {
      var v, r := MajorMinor(apply.version.value), MajorMinor(reported.version);
      UpgradesAreSuccessors(fcv, v);
      LessIsTotal(v, r);
      LessIrreflexive(r);
    }
  }

  /** One release up from the FCV and above what runs, or back down to the FCV. */
  ghost predicate Reachable(version: Version, reported: Version, fcv: string) {
    var v, r := MajorMinor(version), MajorMinor(reported);
    if Less(r, v) then Succeeds(fcv, v) else Less(v, r) && v == fcv
  }

  // ---------------------------------------------------------------- runs

  /** A running cluster: the version it reports and its FCV. */
  datatype World = World(reported: Version, fcv: string)

  /**
   An explicit version is applied, and the version service answers with a version of the same
   major and minor; or a reconcile may raise the FCV to the reported version.
   */
  datatype Action =
    | ApplyVersion(version: Version, strategy: string, answer: Version)
    | UpgradeFcv(setFcv: bool, upToDate: bool)

  predicate Enabled(a: Action) {
    a.ApplyVersion? ==> MajorMinor(a.answer) == MajorMinor(a.version)
  }

  function Step(w: World, a: Action): World {
    match a
    case ApplyVersion(version, strategy, answer) =>
      (match MajorUpgradeRequested(Explicit(Some(version), strategy), Running(w.reported), w.fcv)
       case Granted(_, _) => w.(reported := answer)
       case NoChange => w.(reported := answer)
       case _ => w)
    case UpgradeFcv(setFcv, upToDate) =>
      var now := MajorMinor(w.reported);
      if setFcv && upToDate && CanUpgradeVersion(w.fcv, now) then w.(fcv := now) else w
  }

  /** The FCV is raised exactly when that is asked for, the cluster is up to date and it runs the FCV's successor. */
  lemma FcvRaisedExactly(w: World, setFcv: bool, upToDate: bool)
    ensures var w' := Step(w, UpgradeFcv(setFcv, upToDate));
            && w'.reported == w.reported
            && (w'.fcv == w.fcv || w'.fcv == MajorMinor(w.reported))
            && (w'.fcv != w.fcv <==> setFcv && upToDate && Succeeds(w.fcv, MajorMinor(w.reported)))
  {
    UpgradesAreSuccessors(w.fcv, MajorMinor(w.reported));
    if Succeeds(w.fcv, MajorMinor(w.reported)) && w.fcv == MajorMinor(w.reported) {
      LessIrreflexive(w.fcv);
    }
  }

  ghost predicate IsRun(worlds: seq<World>, actions: seq<Action>) {
    && |worlds| == |actions| + 1
    && forall i :: 0 <= i < |actions| ==> Enabled(actions[i]) && worlds[i + 1] == Step(worlds[i], actions[i])
  }

  /** The reported version is the FCV or one release ahead of it. */
  ghost predicate AtMostOneAhead(w: World) {
    MajorMinor(w.reported) == w.fcv || Succeeds(w.fcv, MajorMinor(w.reported))
  }

  lemma StepKeeps(w: World, a: Action)
    requires AtMostOneAhead(w) && Enabled(a)
    ensures AtMostOneAhead(Step(w, a))
    ensures Step(w, a).fcv == w.fcv || Succeeds(w.fcv, Step(w, a).fcv)
  {
    match a
    case ApplyVersion(version, strategy, _) => GrantedMeaning(version, strategy, w.reported, w.fcv);
    case UpgradeFcv(_, _) => UpgradesAreSuccessors(w.fcv, MajorMinor(w.reported));
  }

  /** Over every run from a server at its FCV, for arbitrary versions. */
  lemma {:induction false} NeverMoreThanOneAhead(worlds: seq<World>, actions: seq<Action>, i: nat)
    requires IsRun(worlds, actions) && i < |worlds| && MajorMinor(worlds[0].reported) == worlds[0].fcv
    ensures AtMostOneAhead(worlds[i])
  {
    if i == 0 {
    } else {
      NeverMoreThanOneAhead(worlds, actions, i - 1);
      StepKeeps(worlds[i - 1], actions[i - 1]);
    }
  }

  /** `b` is `a` or a later release. */
  ghost predicate NotBefore(a: string, b: string) {
    a == b || exists i, j :: 0 <= i < j < |CHAIN| && CHAIN[i] == a && CHAIN[j] == b
  }

  /** `b` is `a` or its successor. */
  ghost predicate AtMostOneUp(a: string, b: string) {
    a == b || Succeeds(a, b)
  }

  lemma OneFurther(a: string, b: string, c: string)
    requires NotBefore(a, b) && AtMostOneUp(b, c)
    ensures NotBefore(a, c)
  {
    if c != b {
      var k :| 0 <= k < |CHAIN| - 1 && CHAIN[k] == b && CHAIN[k + 1] == c;
      if a == b {
        assert CHAIN[k] == a && CHAIN[k + 1] == c;
      } else {
        var i, j :| 0 <= i < j < |CHAIN| && CHAIN[i] == a && CHAIN[j] == b;
        ChainDistinct(j, k);
        assert i < k + 1 && CHAIN[i] == a && CHAIN[k + 1] == c;
      }
    }
  }

  lemma {:induction false} Climbing(versions: seq<string>, i: nat, j: nat)
    requires i <= j < |versions|
    requires forall k :: 0 <= k < |versions| - 1 ==> AtMostOneUp(versions[k], versions[k + 1])
    ensures NotBefore(versions[i], versions[j])
    decreases j
  {
    if i == j {
    } else {
      Climbing(versions, i, j - 1);
      OneFurther(versions[i], versions[j - 1], versions[j]);
    }
  }

  lemma FcvStep(worlds: seq<World>, actions: seq<Action>, k: nat)
    requires IsRun(worlds, actions) && k < |actions| && MajorMinor(worlds[0].reported) == worlds[0].fcv
    ensures AtMostOneUp(worlds[k].fcv, worlds[k + 1].fcv)
  {
    NeverMoreThanOneAhead(worlds, actions, k);
    StepKeeps(worlds[k], actions[k]);
  }

  /** The FCV never goes down the chain, and leaves a release only for a later one. */
  lemma FcvNeverGoesDown(worlds: seq<World>, actions: seq<Action>, i: nat, j: nat)
    requires IsRun(worlds, actions) && i <= j < |worlds| && MajorMinor(worlds[0].reported) == worlds[0].fcv
    ensures NotBefore(worlds[i].fcv, worlds[j].fcv)
  {
    var versions := seq(|worlds|, k requires 0 <= k < |worlds| => worlds[k].fcv);
    forall k | 0 <= k < |versions| - 1 ensures AtMostOneUp(versions[k], versions[k + 1]) {
      FcvStep(worlds, actions, k);
    }
    Climbing(versions, i, j);
  }

  /**
   What any reachable cluster is granted, without the string order: at its FCV, exactly the
   successor; one release ahead, exactly the way back.
   */
  lemma GrantedExactly(w: World, version: Version, strategy: string)
    requires AtMostOneAhead(w)
    ensures MajorUpgradeRequested(Explicit(Some(version), strategy), Running(w.reported), w.fcv).Granted? <==>
              if MajorMinor(w.reported) == w.fcv then Succeeds(w.fcv, MajorMinor(version))
              else MajorMinor(version) == w.fcv
  {
    var now, next := MajorMinor(w.reported), MajorMinor(version);
    UpgradesAreSuccessors(w.fcv, next);
    LessIrreflexive(now);
    if now != w.fcv {
      UpgradesAreSuccessors(w.fcv, now);
      if Succeeds(w.fcv, next) {
        SuccessorIsUnique(w.fcv, now, next);
      }
      LessIsAsymmetric(w.fcv, now);
    }
  }

  lemma LessIsAsymmetric(a: string, b: string)
    requires Less(a, b)
    ensures !Less(b, a)
  {
    if Less(b, a) {
      LessIsTransitive(a, b, a);
      LessIrreflexive(a);
    }
  }

  /** Every release can be left for the next: apply the next version, then let the FCV follow. */
  lemma EveryStepIsPossible(w: World, next: Version, strategy: string)
    requires MajorMinor(w.reported) == w.fcv && Succeeds(w.fcv, MajorMinor(next))
    ensures Step(Step(w, ApplyVersion(next, strategy, next)), UpgradeFcv(true, true)) == World(next, MajorMinor(next))
  {
    UpgradesAreSuccessors(w.fcv, MajorMinor(next));
  }
}
