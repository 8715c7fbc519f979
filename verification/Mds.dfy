/** The FIDO metadata store of local/mds.ts (section 3.2 of the FIDO Metadata Service v3.0): which BLOB it accepts, and
    how long an accepted one stays usable. Digests are taken to be injective: texts stand for their hashes. */
module Mds {
  import opened Wrappers

  datatype Profile = Mds30 | Mds311

  datatype Input = Input(profile: Profile, jwt: string, anchor: string, now: int, crls: seq<string>)

  datatype Verified = Verified(number: int, issuedAt: Option<int>, nextUpdate: Option<int>, profile: Profile,
                               entries: nat)

  datatype Config = Config(url: string, profile: Profile, anchor: string, hosts: seq<string>, maxAge: int)

  /** What identifies a channel: the order of the allowed hosts does not. */
  datatype Channel = Channel(url: string, profile: Profile, anchor: string, hosts: multiset<string>, maxAge: int)

  datatype Snapshot = Snapshot(input: Input, verified: Verified, firstSeen: int, validatedAt: int)

  datatype Error = BadConfig | ChannelChanged | BadInput | VerifierFailed | BadVerified | Stale | Rollback | Unavailable
        | Transport | BadCrls

  /** The single database row. */
  datatype Row = Row(channel: Option<Channel>, snapshot: Option<Snapshot>, lastAttempt: Option<int>,
                     failure: Option<Error>)

  const MAX_SAFE := 0x1f_ffff_ffff_ffff

  predicate SafeInteger(n: int) { 0 <= n <= MAX_SAFE }

  function ChannelOf(c: Config): Channel { Channel(c.url, c.profile, c.anchor, multiset(c.hosts), c.maxAge) }

  /** The bounds that the constructor checks; `destination` is left to the caller. */
  predicate ValidConfig(c: Config) {
    SafeInteger(c.maxAge) && 3600 <= c.maxAge <= 31 * 86400 && 0 < |c.anchor| <= 4096 && 0 < |c.hosts| <= 32
  }

  type Verifier = Input -> Option<Verified>

  predicate Fresh(c: Config, v: Verified, now: int, firstSeen: int) {
    var issued := if v.issuedAt.Some? then v.issuedAt.value else firstSeen;
    && !(c.profile.Mds311? && v.issuedAt.None?)
    && issued <= now + 300 && firstSeen <= now + 300
    && now - issued <= c.maxAge && now - firstSeen <= c.maxAge
    && (c.profile.Mds30? ==> v.nextUpdate.Some? && SafeInteger(v.nextUpdate.value) && now <= v.nextUpdate.value)
  }

  /** `validate` */
  function Validate(c: Config, verify: Verifier, input: Input, firstSeen: int): Result<Verified, Error> {
    if !SafeInteger(input.now) || input.profile != c.profile || input.anchor != c.anchor then Failure(BadInput)
    else if verify(input).None? then Failure(VerifierFailed)
    else
      var v := verify(input).value;
      if !SafeInteger(v.number) || v.profile != c.profile || v.entries > 10000
        || (v.issuedAt.Some? && !SafeInteger(v.issuedAt.value)) then
        Failure(BadVerified)
      else if !Fresh(c, v, input.now, firstSeen) then Failure(Stale)
      else Success(v)
  }

  /** An older serial, or the same serial under another token. */
  predicate RolledBack(previous: Option<Snapshot>, v: Verified, jwt: string) {
    previous.Some?
    && (v.number < previous.value.verified.number || (v.number == previous.value.verified.number
       && jwt != previous.value.input.jwt))
  }

  /** When the serial was first accepted: re-accepting it does not move the time. */
  function FirstSeen(previous: Option<Snapshot>, v: Verified, now: int): int {
    if previous.Some? && previous.value.verified.number == v.number then previous.value.firstSeen else now
  }

  /** `accept`: the new row and the accepted BLOB, or an error and the row as it was. */
  function Accept(c: Config, verify: Verifier, row: Row, input: Input): (Row, Result<Verified, Error>) {
    var first := Validate(c, verify, input, input.now);
    if first.Failure? then (row, first)
    else if RolledBack(row.snapshot, first.value, input.jwt) then (row, Failure(Rollback))
    else
      var firstSeen := FirstSeen(row.snapshot, first.value, input.now);
      var again := Validate(c, verify, input, firstSeen);
      if again.Failure? then (row, again)
      else (row.(snapshot := Some(Snapshot(input, first.value, firstSeen, input.now)), lastAttempt :=
        Some(input.now), failure := None), first)
  }

  /** `forRegistration`: the stored BLOB, verified again at the time of use. */
  function ForRegistration(c: Config, verify: Verifier, row: Row, now: int): Result<Verified, Error> {
    if row.snapshot.None? then Failure(Unavailable)
    else Validate(c, verify, row.snapshot.value.input.(now := now), row.snapshot.value.firstSeen)
  }

  function Open(c: Config, row: Row): (Row, Result<(), Error>) {
    if !ValidConfig(c) then (row, Failure(BadConfig))
    else if row.channel.Some? && row.channel.value != ChannelOf(c) then (row, Failure(ChannelChanged))
    else (row.(channel := Some(ChannelOf(c))), Success(()))
  }

  // ---------------------------------------------------------------- runs

  /** Any number of processes use the row; each opened it with its own configuration. */
  datatype Step =
    | Opens(config: Config)
    | Accepts(config: Config, input: Input)
    | RefreshFails(now: int, reason: Error)

  /** A committed acceptance. */
  datatype Acceptance = Acceptance(number: int, jwt: string, at: int)

  datatype World = World(row: Row, log: seq<Acceptance>)

  /** A process can only use a row that it has opened. */
  predicate Enabled(w: World, s: Step) { s.Accepts? ==> w.row.channel == Some(ChannelOf(s.config)) }

  function Apply(verify: Verifier, w: World, s: Step): World {
    match s
    case Opens(c) => w.(row := Open(c, w.row).0)
    case Accepts(c, input) =>
      var (row, r) := Accept(c, verify, w.row, input);
      if r.Success? then World(row, w.log + [Acceptance(r.value.number, input.jwt, input.now)]) else w.(row := row)
    case RefreshFails(now, reason) => w.(row := w.row.(lastAttempt := Some(now), failure := Some(reason)))
  }

  ghost predicate IsRun(verify: Verifier, states: seq<World>, steps: seq<Step>) {
    && |states| == |steps| + 1
    && forall i :: 0 <= i < |steps| ==>
       Enabled(states[i], steps[i])
       && states[i + 1] == Apply(verify, states[i], steps[i])
  }

  predicate Initial(w: World) { w == World(Row(None, None, None, None), []) }

  /** When the given serial was first accepted. */
  function FirstAt(log: seq<Acceptance>, number: int): Option<int> {
    if log == [] then None else
    var n := |log| - 1;
    var earlier := FirstAt(log[..n], number);
    if earlier.Some? then earlier else if log[n].number == number then Some(log[n].at) else None
  }

  /** Serials in the log never decrease and are bound to one token; the snapshot is the last entry, and remembers when
      its serial was first accepted. */
  ghost predicate Inv(w: World) {
    && (w.row.snapshot.None? <==> w.log == [])
    && (forall i, j :: 0 <= i < j < |w.log| ==> w.log[i].number <= w.log[j].number)
    && (forall i, j :: 0 <= i < j < |w.log| && w.log[i].number == w.log[j].number ==> w.log[i].jwt == w.log[j].jwt)
    && (w.log != [] ==>
          var s, last := w.row.snapshot.value, w.log[|w.log| - 1];
          s.verified.number == last.number && s.input.jwt == last.jwt
            && FirstAt(w.log, last.number) == Some(s.firstSeen))
  }

  lemma {:induction false} NotYet(log: seq<Acceptance>, number: int)
    requires forall i :: 0 <= i < |log| ==> log[i].number != number
    ensures FirstAt(log, number) == None
  {
    if log != [] { NotYet(log[..|log| - 1], number); }
  }

  lemma Appended(log: seq<Acceptance>, a: Acceptance)
    ensures FirstAt(log + [a], a.number) == if FirstAt(log, a.number).Some? then FirstAt(log, a.number) else Some(a.at)
  {
    assert (log + [a])[..|log|] == log;
  }

  lemma {:induction false} FirstStays(log: seq<Acceptance>, log': seq<Acceptance>, number: int)
    requires log <= log' && FirstAt(log, number).Some?
    ensures FirstAt(log', number) == FirstAt(log, number)
    decreases |log'|
  {
    if |log| < |log'| {
      FirstStays(log, log'[..|log'| - 1], number);
    } else {
      assert log == log';
    }
  }

  lemma AcceptKeeps(c: Config, verify: Verifier, w: World, input: Input)
    requires Inv(w)
    ensures Inv(Apply(verify, w, Accepts(c, input)))
  {
    hide Validate, FirstAt;
    var (row, r) := Accept(c, verify, w.row, input);
    if r.Success? {
      var a := Acceptance(r.value.number, input.jwt, input.now);
      Appended(w.log, a);
      if w.log == [] {
        NotYet(w.log, a.number);
      } else {
        var last := w.log[|w.log| - 1];
        assert forall j :: 0 <= j < |w.log| ==> w.log[j].number <= last.number <= a.number;
        if last.number < a.number { NotYet(w.log, a.number); }
      }
    }
  }

  lemma StepKeeps(verify: Verifier, w: World, s: Step)
    requires Inv(w) && Enabled(w, s)
    ensures Inv(Apply(verify, w, s))
  {
    hide FirstAt, Accept;
    match s
    case Accepts(c, input) => AcceptKeeps(c, verify, w, input);
    case _ =>
  }

  lemma {:induction false} RunKeeps(verify: Verifier, states: seq<World>, steps: seq<Step>, i: nat)
    requires IsRun(verify, states, steps) && Initial(states[0]) && i < |states|
    ensures Inv(states[i])
  {
    hide Inv, Apply;
    if i == 0 {
      assert Inv(states[0]) by { InitialInv(states[0]); }
    } else {
      RunKeeps(verify, states, steps, i - 1);
      assert Enabled(states[i - 1], steps[i - 1]) && states[i - 1 + 1] == Apply(verify, states[i - 1], steps[i - 1]);
      StepKeeps(verify, states[i - 1], steps[i - 1]);
    }
  }

  lemma InitialInv(w: World)
    requires Initial(w)
    ensures Inv(w)
  {
  }

  lemma {:induction false} LogGrows(verify: Verifier, states: seq<World>, steps: seq<Step>, i: nat, j: nat)
    requires IsRun(verify, states, steps) && i <= j < |states|
    ensures states[i].log <= states[j].log
  {
    if i < j {
      LogGrows(verify, states, steps, i, j - 1);
      assert Enabled(states[j - 1], steps[j - 1]) && states[j - 1 + 1] == Apply(verify, states[j - 1], steps[j - 1]);
    }
  }

  // ---------------------------------------------------------------- main results

  /** Anti-rollback over whole runs, with any number of processes: the stored serial never decreases, and while it stays
      the same so do its token and the time it was first seen. */
  lemma NeverRollsBack(verify: Verifier, states: seq<World>, steps: seq<Step>, i: nat, j: nat)
    requires IsRun(verify, states, steps) && Initial(states[0]) && i <= j < |states| && states[i].row.snapshot.Some?
    ensures states[j].row.snapshot.Some?
    ensures var s, s' := states[i].row.snapshot.value, states[j].row.snapshot.value;
            && s.verified.number <= s'.verified.number
            && (s.verified.number == s'.verified.number ==> s'.input.jwt == s.input.jwt && s'.firstSeen == s.firstSeen)
  {
    hide FirstAt, Apply, IsRun;
    RunKeeps(verify, states, steps, i);
    RunKeeps(verify, states, steps, j);
    LogGrows(verify, states, steps, i, j);
    var a, b := states[i].log, states[j].log;
    assert b[|a| - 1] == a[|a| - 1];
    FirstStays(a, b, a[|a| - 1].number);
  }

  /** Freshness cannot be extended: a serial first accepted at t0 is not usable after t0 + max_age, however often it has
      been accepted again, by whichever process. */
  lemma SerialExpires(verify: Verifier, states: seq<World>, steps: seq<Step>, i: nat, c: Config, now: int)
    requires IsRun(verify, states, steps) && Initial(states[0]) && i < |states|
    requires ForRegistration(c, verify, states[i].row, now).Success?
    ensures states[i].row.snapshot.Some?
    ensures var t0 := FirstAt(states[i].log, states[i].row.snapshot.value.verified.number);
            t0.Some? && now <= t0.value + c.maxAge
  {
    hide FirstAt, Apply, IsRun;
    RunKeeps(verify, states, steps, i);
  }

  /** The verifier takes the serial from the token, whatever the time and the CRLs. */
  ghost predicate SerialFromToken(verify: Verifier) {
    forall a: Input, b: Input :: a.jwt == b.jwt && verify(a).Some? && verify(b).Some? ==>
      verify(a).value.number == verify(b).value.number
  }

  /** The stored BLOB is what the verifier made of the stored token. */
  ghost predicate SnapshotVerified(verify: Verifier, row: Row) {
    row.snapshot.Some? ==> verify(row.snapshot.value.input) == Some(row.snapshot.value.verified)
  }

  lemma {:induction false} SnapshotsVerified(verify: Verifier, states: seq<World>, steps: seq<Step>, i: nat)
    requires IsRun(verify, states, steps) && Initial(states[0]) && i < |states|
    ensures SnapshotVerified(verify, states[i].row)
  {
    hide RolledBack, FirstSeen, Fresh;
    if i > 0 {
      SnapshotsVerified(verify, states, steps, i - 1);
      assert Enabled(states[i - 1], steps[i - 1]) && states[i - 1 + 1] == Apply(verify, states[i - 1], steps[i - 1]);
    }
  }

  lemma UsableIsStored(c: Config, verify: Verifier, row: Row, now: int)
    requires SnapshotVerified(verify, row) && SerialFromToken(verify) && ForRegistration(c, verify, row, now).Success?
    ensures row.snapshot.Some?
    ensures var v := ForRegistration(c, verify, row, now).value;
            && v.number == row.snapshot.value.verified.number && v.profile == c.profile
            && Fresh(c, v, now, row.snapshot.value.firstSeen)
  {
    var input := row.snapshot.value.input;
    assert input.(now := now).jwt == input.jwt;
  }

  /** What a registration can rely on, in any process and however the clocks of the callers run: the metadata it gets is
      fresh at its own time, its serial was first accepted at most max_age before, and it is never older than what an
      earlier registration got; the same serial means the same token. */
  lemma RegistrationNeverRollsBack(verify: Verifier, states: seq<World>, steps: seq<Step>, i: nat, j: nat, c: Config,
                                   d: Config, now: int, later: int)
    requires IsRun(verify, states, steps) && Initial(states[0]) && i <= j < |states| && SerialFromToken(verify)
    requires ForRegistration(c, verify, states[i].row, now).Success?
             && ForRegistration(d, verify, states[j].row, later).Success?
    ensures states[i].row.snapshot.Some? && states[j].row.snapshot.Some?
    ensures var v, v' := ForRegistration(c, verify, states[i].row, now).value,
            ForRegistration(d, verify, states[j].row, later).value;
            var t0 := FirstAt(states[j].log, v'.number);
            && v.number <= v'.number
            && (v.number == v'.number ==>
               states[j].row.snapshot.value.input.jwt
               == states[i].row.snapshot.value.input.jwt)
            && t0.Some? && later <= t0.value + d.maxAge && t0.value <= later + 300
            && (v'.issuedAt.Some? ==> v'.issuedAt.value - 300 <= later <= v'.issuedAt.value + d.maxAge)
            && (d.profile.Mds311? ==> v'.issuedAt.Some?)
            && (d.profile.Mds30? ==> v'.nextUpdate.Some? && later <= v'.nextUpdate.value)
  {
    hide FirstAt, Apply, IsRun, Inv, ForRegistration, SerialFromToken, SnapshotVerified;
    SnapshotsVerified(verify, states, steps, i);
    SnapshotsVerified(verify, states, steps, j);
    UsableIsStored(c, verify, states[i].row, now);
    UsableIsStored(d, verify, states[j].row, later);
    NeverRollsBack(verify, states, steps, i, j);
    SerialExpires(verify, states, steps, j, d, later);
    RunKeeps(verify, states, steps, j);
    StoredFirst(states[j]);
  }

  lemma StoredFirst(w: World)
    requires Inv(w) && w.row.snapshot.Some?
    ensures FirstAt(w.log, w.row.snapshot.value.verified.number) == Some(w.row.snapshot.value.firstSeen)
  {
    hide FirstAt;
  }

  /** Once a channel has been chosen every process that can use the row has the same profile, anchor and maximum age. */
  lemma {:induction false} ChannelFixed(verify: Verifier, states: seq<World>, steps: seq<Step>, i: nat, j: nat)
    requires IsRun(verify, states, steps) && i <= j < |states| && states[i].row.channel.Some?
    ensures states[j].row.channel == states[i].row.channel
  {
    hide Validate, RolledBack, FirstSeen;
    if i < j {
      ChannelFixed(verify, states, steps, i, j - 1);
      assert Enabled(states[j - 1], steps[j - 1]) && states[j - 1 + 1] == Apply(verify, states[j - 1], steps[j - 1]);
    }
  }

  lemma SameChannelSameRules(c: Config, d: Config)
    requires ChannelOf(c) == ChannelOf(d)
    ensures forall verify, input, firstSeen ::
              Validate(c, verify, input, firstSeen)
              == Validate(d, verify, input, firstSeen)
  {
  }

  /** Nothing but a committed acceptance ever changes the snapshot, in particular no failed refresh and no rejected
      BLOB. */
  lemma SnapshotOnlyByAcceptance(verify: Verifier, w: World, s: Step)
    ensures var w' := Apply(verify, w, s);
            w'.row.snapshot != w.row.snapshot ==>
              s.Accepts? && Accept(s.config, verify, w.row, s.input).1.Success?
              && |w'.log| == |w.log| + 1
  {
    hide Validate, RolledBack, FirstSeen;
  }

  /** When the store accepts, and what it then stores: the BLOB verifies under this profile and anchor; its serial is
      not older than the stored one, and the stored serial comes with the stored token only; it was issued, and its
      serial first seen, at most 300 seconds after and max_age before the time of the call; a 3.1.1 BLOB says when it
      was issued, and the next update of a 3.0 BLOB has not passed. A rejected BLOB leaves the row as it was. */
  lemma AcceptsExactly(c: Config, verify: Verifier, row: Row, input: Input)
    ensures var (row', r) := Accept(c, verify, row, input);
            && (r.Success? <==>
               && 0 <= input.now <= MAX_SAFE && input.profile == c.profile && input.anchor == c.anchor
               && verify(input).Some? && 0 <= c.maxAge
               && var v := verify(input).value;
               && 0 <= v.number <= MAX_SAFE && v.profile == c.profile && v.entries <= 10000
               && (row.snapshot.Some? ==>
                  && row.snapshot.value.verified.number <= v.number
                  && (row.snapshot.value.verified.number == v.number ==>
                     && input.jwt == row.snapshot.value.input.jwt
                     && row.snapshot.value.firstSeen <= input.now + 300
                     && input.now <= row.snapshot.value.firstSeen + c.maxAge))
               && (v.issuedAt.Some? ==>
                  && 0 <= v.issuedAt.value <= MAX_SAFE
                  && v.issuedAt.value <= input.now + 300 && input.now <= v.issuedAt.value + c.maxAge)
               && (c.profile == Mds311 ==> v.issuedAt.Some?)
               && (c.profile == Mds30 ==>
                  v.nextUpdate.Some? && 0 <= v.nextUpdate.value <= MAX_SAFE && input.now <= v.nextUpdate.value))
            && (r.Success? ==>
               && r.value == verify(input).value
               && row' == Row(row.channel, Some(Snapshot(input, r.value,
                    if row.snapshot.Some? && row.snapshot.value.verified.number == r.value.number
                    then row.snapshot.value.firstSeen else input.now, input.now)), Some(input.now), None))
            && (r.Failure? ==> row' == row)
  {
  }

  /** When a registration gets metadata: there is a stored BLOB, it verifies again at the time of the call, and it and
      its serial are fresh at that time. */
  lemma UsableExactly(c: Config, verify: Verifier, row: Row, now: int)
    ensures ForRegistration(c, verify, row, now).Success? <==>
            && row.snapshot.Some?
            && var s := row.snapshot.value;
            && 0 <= now <= MAX_SAFE && s.input.profile == c.profile && s.input.anchor == c.anchor
            && verify(Input(s.input.profile, s.input.jwt, s.input.anchor, now, s.input.crls)).Some?
            && var v := verify(Input(s.input.profile, s.input.jwt, s.input.anchor, now, s.input.crls)).value;
            && 0 <= v.number <= MAX_SAFE && v.profile == c.profile && v.entries <= 10000
            && s.firstSeen <= now + 300 && now <= s.firstSeen + c.maxAge
            && (v.issuedAt.Some? ==>
               && 0 <= v.issuedAt.value <= MAX_SAFE
               && v.issuedAt.value <= now + 300 && now <= v.issuedAt.value + c.maxAge)
            && (c.profile == Mds311 ==> v.issuedAt.Some?)
            && (c.profile == Mds30 ==>
               v.nextUpdate.Some? && 0 <= v.nextUpdate.value <= MAX_SAFE && now <= v.nextUpdate.value)
  {
    if row.snapshot.Some? {
      var i := row.snapshot.value.input;
      assert i.(now := now) == Input(i.profile, i.jwt, i.anchor, now, i.crls);
    }
  }

  /** When a process may use the row: its configuration is within bounds, and the row belongs to nobody or to the same
      channel, whatever the order of the hosts. Opening changes nothing but the channel, and nothing at all if it
      fails. */
  lemma OpensExactly(c: Config, row: Row)
    ensures var (row', r) := Open(c, row);
            var inBounds := 3600 <= c.maxAge <= 2678400 && 0 < |c.anchor| <= 4096 && 0 < |c.hosts| <= 32;
            var channel := Channel(c.url, c.profile, c.anchor, multiset(c.hosts), c.maxAge);
            && (r.Success? <==> inBounds && (row.channel.None? || row.channel == Some(channel)))
            && (r.Success? ==> row' == Row(Some(channel), row.snapshot, row.lastAttempt, row.failure))
            && (r.Failure? ==> row' == row && r.error == if inBounds then ChannelChanged else BadConfig)
  {
  }
}
