/** Which of seven feeds may update the client's view: the slot watermarks and the authority filter. */
module Watermarks {

  datatype Source = BaseWs | BasePoll | BaseFallbackPoll | RouterWs | RouterPoll | ErWs | ErPoll

  datatype Domain = Base | Rollup

  /** Whether the name of the feed starts with "base-". */
  function DomainOf(source: Source): Domain {
    if source.BaseWs? || source.BasePoll? || source.BaseFallbackPoll? then Base else Rollup
  }

  const SOURCES: set<Source> := {BaseWs, BasePoll, BaseFallbackPoll, RouterWs, RouterPoll, ErWs, ErPoll}

  type Table = t: map<Source, nat> | SOURCES <= t.Keys witness EMPTY

  const EMPTY: map<Source, nat> :=
    map[BaseWs := 0, BasePoll := 0, BaseFallbackPoll := 0, RouterWs := 0, RouterPoll := 0, ErWs := 0, ErPoll := 0]

  function Max(a: nat, b: nat): nat {
    if a < b then b else a
  }

  lemma AllSources(source: Source)
    ensures source in SOURCES
  {
  }

  /** The highest slot any feed of the domain has had accepted. */
  function Highest(t: Table, domain: Domain): nat {
    match domain
    case Base => Max(t[BaseWs], Max(t[BasePoll], t[BaseFallbackPoll]))
    case Rollup => Max(t[RouterWs], Max(t[RouterPoll], Max(t[ErWs], t[ErPoll])))
  }

  function LiveSourceIsAuthoritative(source: Source, delegated: bool, directValidator: bool): bool {
    if !delegated then source == BaseWs || source == BasePoll || source == BaseFallbackPoll
    else if source == RouterWs || source == RouterPoll then true
    else directValidator && (source == ErWs || source == ErPoll)
  }

  // ----- The same thing with one counter per domain -----

  /** The slot accepted last in each domain. */
  datatype Counters = Counters(base: nat, rollup: nat)

  function LastIn(c: Counters, domain: Domain): nat {
    if domain == Base then c.base else c.rollup
  }

  predicate Admits(c: Counters, source: Source, slot: nat) {
    slot >= LastIn(c, DomainOf(source))
  }

  function Accepting(c: Counters, source: Source, slot: nat): Counters {
    if !Admits(c, source, slot) then c
    else if DomainOf(source) == Base then c.(base := slot)
    else c.(rollup := slot)
  }

  function Summary(t: Table): Counters {
    Counters(Highest(t, Base), Highest(t, Rollup))
  }

  // ----- The table the client updates in place -----

  class SourceWatermarks {
    var watermarks: Table

    constructor ()
      ensures watermarks == EMPTY && Summary(watermarks) == Counters(0, 0)
    {
      watermarks := EMPTY;
    }

    /** Seven watermarks behave as two counters. */
    method AcceptSourceSlot(source: Source, slot: nat) returns (accepted: bool)
      modifies this
      ensures accepted == Admits(Summary(old(watermarks)), source, slot)
      ensures Summary(watermarks) == Accepting(Summary(old(watermarks)), source, slot)
      ensures watermarks == if accepted then old(watermarks)[source := slot] else old(watermarks)
    {
      AllSources(source);
      if slot < Highest(watermarks, DomainOf(source)) { return false; }
      watermarks := watermarks[source := slot];
      accepted := true;
    }

    /** The subscription's `publishLive` for a run of deliveries: which of them reach the view. */
    method PublishAll(deliveries: seq<Delivery>) returns (published: seq<bool>)
      modifies this
      ensures published == Published(Summary(old(watermarks)), deliveries)
      ensures Summary(watermarks) == CountersAfter(Summary(old(watermarks)), deliveries)
    {
      published := [];
      ghost var start := Summary(watermarks);
      for i := 0 to |deliveries|
        invariant published == Published(start, deliveries[..i])
        invariant Summary(watermarks) == CountersAfter(start, deliveries[..i])
      {
        var d := deliveries[i];
        var accepted := false;
        if LiveSourceIsAuthoritative(d.source, d.delegated, d.directValidator) {
          accepted := AcceptSourceSlot(d.source, d.slot);
        }
        assert deliveries[..i + 1][..i] == deliveries[..i];
        published := published + [accepted];
      }
      assert deliveries[..|deliveries|] == deliveries;
    }
  }

  // ----- Runs -----

  /** One update arriving from a feed, with what the client knew of the delegation at that moment. */
  datatype Delivery = Delivery(source: Source, slot: nat, delegated: bool, directValidator: bool)

  predicate Passes(c: Counters, d: Delivery) {
    LiveSourceIsAuthoritative(d.source, d.delegated, d.directValidator) && Admits(c, d.source, d.slot)
  }

  function CountersAfter(c: Counters, deliveries: seq<Delivery>): Counters {
    if deliveries == [] then c
    else
      var before := CountersAfter(c, deliveries[..|deliveries| - 1]);
      var d := deliveries[|deliveries| - 1];
      if Passes(before, d) then Accepting(before, d.source, d.slot) else before
  }

  function Published(c: Counters, deliveries: seq<Delivery>): (published: seq<bool>)
    ensures |published| == |deliveries|
  {
    if deliveries == [] then []
    else
      var before := deliveries[..|deliveries| - 1];
      Published(c, before) + [Passes(CountersAfter(c, before), deliveries[|deliveries| - 1])]
  }

  /** The counter of a domain is the last slot published in it, and nothing published in it lies above. */
  lemma {:induction false} CounterIsHighest(c: Counters, deliveries: seq<Delivery>, i: nat)
    requires i < |deliveries| && Published(c, deliveries)[i]
    ensures deliveries[i].slot <= LastIn(CountersAfter(c, deliveries), DomainOf(deliveries[i].source))
  {
    var before := deliveries[..|deliveries| - 1];
    if i < |before| {
      CounterIsHighest(c, before, i);
      assert before[i] == deliveries[i];
    }
  }

  /** Over any interleaving of the seven feeds, an update published later in the same domain is never older. */
  lemma {:induction false} NeverBackwards(c: Counters, deliveries: seq<Delivery>, i: nat, j: nat)
    requires i < j < |deliveries| && Published(c, deliveries)[i] && Published(c, deliveries)[j]
    requires DomainOf(deliveries[i].source) == DomainOf(deliveries[j].source)
    ensures deliveries[i].slot <= deliveries[j].slot
  {
    var before := deliveries[..|deliveries| - 1];
    if j < |before| {
      assert before[i] == deliveries[i] && before[j] == deliveries[j];
      NeverBackwards(c, before, i, j);
    } else {
      assert before[i] == deliveries[i];
      CounterIsHighest(c, before, i);
    }
  }

  /** What is published came from the ledger that owned the account: base when it was not delegated, the rollup when
      it was, and a direct rollup feed only from the validator it was delegated to. Nothing newer from there is held
      back. */
  lemma {:induction false} PublishedIff(c: Counters, deliveries: seq<Delivery>, i: nat)
    requires i < |deliveries|
    ensures var d := deliveries[i];
      Published(c, deliveries)[i] <==>
        && (DomainOf(d.source) == Rollup <==> d.delegated)
        && (d.source == ErWs || d.source == ErPoll ==> d.directValidator)
        && d.slot >= LastIn(CountersAfter(c, deliveries[..i]), DomainOf(d.source))
  {
    var before := deliveries[..|deliveries| - 1];
    if i < |before| {
      PublishedIff(c, before, i);
      assert before[i] == deliveries[i] && before[..i] == deliveries[..i];
    }
  }
}
