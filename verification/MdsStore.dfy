/** `MdsStore` as an object over a shared database row. */
module MdsStore {
  import opened Wrappers
  import opened Mds

  /** The one row of mds_state. Several stores, in several processes, may use it. */
  class Database {
    var row: Row

    constructor ()
      ensures row == Row(None, None, None, None)
    {
      row := Row(None, None, None, None);
    }
  }

  /** What the network answers and which CRL addresses a token names. */
  type Network = string -> Option<string>
  type CrlAddresses = string -> Option<seq<string>>

  /** [...new Set(urls)] */
  function Unique(urls: seq<string>): (r: seq<string>)
    ensures forall u :: u in r <==> u in urls
    ensures forall i, j :: 0 <= i < j < |r| ==> r[i] != r[j]
  {
    if urls == [] then [] else
    var n := |urls| - 1;
    var init := Unique(urls[..n]);
    assert urls == urls[..n] + [urls[n]];
    if urls[n] in init then init else init + [urls[n]]
  }

  /** The token at the configured address together with each of its CRLs, once. */
  ghost predicate Downloaded(config: Config, now: int, network: Network, addresses: CrlAddresses, input: Input) {
    && input.profile == config.profile && input.anchor == config.anchor && input.now == now
    && network(config.url) == Some(input.jwt)
    && addresses(input.jwt).Some? && 0 < |addresses(input.jwt).value| <= 12
    && var urls := Unique(addresses(input.jwt).value);
    |input.crls| == |urls| && forall k :: 0 <= k < |urls| ==> network(urls[k]) == Some(input.crls[k])
  }

  class Store {
    const config: Config
    const verify: Verifier
    const db: Database

    constructor (config: Config, verify: Verifier, db: Database)
      ensures this.config == config && this.verify == verify && this.db == db
    {
      this.config, this.verify, this.db := config, verify, db;
    }

    /** The checks of the constructor: the configuration, and that the row belongs to the same channel. */
    static method Open(config: Config, verify: Verifier, db: Database) returns (r: Result<Store, Error>)
      modifies db
      ensures db.row == Mds.Open(config, old(db.row)).0
      ensures r.Success? <==> Mds.Open(config, old(db.row)).1.Success?
      ensures r.Success? ==>
                r.value.db == db && r.value.config == config && r.value.verify == verify
                && db.row.channel == Some(ChannelOf(config))
      ensures r.Failure? ==> db.row == old(db.row) && r.error == Mds.Open(config, old(db.row)).1.error
    {
      if !ValidConfig(config) { return Failure(BadConfig); }
      if db.row.channel.Some? && db.row.channel.value != ChannelOf(config) { return Failure(ChannelChanged); }
      db.row := db.row.(channel := Some(ChannelOf(config)));
      var store := new Store(config, verify, db);
      return Success(store);
    }

    /** `accept`: validated before the transaction, compared and validated again inside it. */
    method Accept(input: Input) returns (r: Result<Verified, Error>)
      modifies db
      ensures (db.row, r) == Mds.Accept(config, verify, old(db.row), input)
      ensures r.Failure? ==> db.row == old(db.row)
    {
      var first := Validate(config, verify, input, input.now);
      if first.Failure? { return first; }
      var v := first.value;
      var previous := db.row.snapshot;
      if previous.Some? {
        var stored := previous.value.verified.number;
        if v.number < stored || (v.number == stored && input.jwt != previous.value.input.jwt) {
          return Failure(Rollback);
        }
      }
      var firstSeen := input.now;
      if previous.Some? && previous.value.verified.number == v.number { firstSeen := previous.value.firstSeen; }
      var again := Validate(config, verify, input, firstSeen);
      if again.Failure? { return again; }
      db.row := db.row.(snapshot := Some(Snapshot(input, v, firstSeen, input.now)), lastAttempt :=
        Some(input.now), failure := None);
      return Success(v);
    }

    /** `forRegistration`: nothing is usable only because it is cached. */
    method ForRegistration(now: int) returns (r: Result<Verified, Error>)
      ensures r == Mds.ForRegistration(config, verify, db.row, now)
      ensures r.Success? ==>
                db.row.snapshot.Some? && now <= db.row.snapshot.value.firstSeen + config.maxAge
                && (config.profile.Mds30? ==> r.value.nextUpdate.Some? && now <= r.value.nextUpdate.value)
    {
      if db.row.snapshot.None? { return Failure(Unavailable); }
      var s := db.row.snapshot.value;
      return Validate(config, verify, s.input.(now := now), s.firstSeen);
    }

    /** `refresh`: download the token and each of its CRLs once, then accept. Any failure is recorded and leaves the
        snapshot alone. */
    method Refresh(now: int, network: Network, addresses: CrlAddresses) returns (r: Result<Verified, Error>)
      modifies db
      ensures r.Success? ==> exists input: Input ::
                Downloaded(config, now, network, addresses, input)
                  && (db.row, r) == Mds.Accept(config, verify, old(db.row), input)
      ensures r.Failure? ==> db.row == old(db.row).(lastAttempt := Some(now), failure := Some(r.error))
    {
      r := Fetched(now, network, addresses);
      if r.Failure? { db.row := db.row.(lastAttempt := Some(now), failure := Some(r.error)); }
    }

    method Fetched(now: int, network: Network, addresses: CrlAddresses) returns (r: Result<Verified, Error>)
      modifies db
      ensures r.Success? ==> exists input: Input ::
                Downloaded(config, now, network, addresses, input)
                  && (db.row, r) == Mds.Accept(config, verify, old(db.row), input)
      ensures r.Failure? ==> db.row == old(db.row)
    {
      var jwt := network(config.url);
      if jwt.None? { return Failure(Transport); }
      var urls := addresses(jwt.value);
      if urls.None? { return Failure(VerifierFailed); }
      if urls.value == [] || |urls.value| > 12 { return Failure(BadCrls); }
      var crls: seq<string> := [];
      var wanted := Unique(urls.value);
      for i := 0 to |wanted|
        invariant |crls| == i && forall k :: 0 <= k < i ==> network(wanted[k]) == Some(crls[k])
      {
        var crl := network(wanted[i]);
        if crl.None? { return Failure(Transport); }
        crls := crls + [crl.value];
      }
      var input := Input(config.profile, jwt.value, config.anchor, now, crls);
      r := Accept(input);
    }
  }
}
