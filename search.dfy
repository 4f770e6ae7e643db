/** Record-type dispatch (`_identify_record`) and the store-level search
    that concatenates it over every live record of a domain. */
module Search {
  import opened Json
  import opened Dns
  import opened Builders

  /** The order in which the builders are consulted. */
  const DispatchOrder: seq<RecordType> := [CNAME, A, AAAA, NS, MX, SOA, TXT, SRV, CAA, NAPTR]

  /** Whether a query type consults the builder of type t: the CNAME builder
      always, any other one for its own code or ANY. */
  predicate Selects(q: int, t: RecordType)
  {
    t == CNAME || q == t.Code() || q == ANY
  }

  /** The records that `build` gives for the selected types from position k
      of the dispatch order on, appended to acc in that order; the first
      builder that fails ends it. */
  function Dispatch(build: RecordType -> Outcome<seq<RR>>, q: int, acc: seq<RR>, k: nat): Outcome<seq<RR>>
    decreases |DispatchOrder| - k
  {
    if k >= |DispatchOrder| then Done(acc)
    else
      var t := DispatchOrder[k];
      var part :- if Selects(q, t) then build(t) else Done([]);
      Dispatch(build, q, acc + part, k + 1)
  }

  /** The builders of one stored record, by type. */
  function BuildersOf(record: Record): RecordType -> Outcome<seq<RR>>
  {
    t => TypeSearch(t, record)
  }

  /** `_identify_record`: the CNAME part for every query type, then each
      selected type in dispatch order, each builder's records appended with
      `+=`; a builder's uncaught exception ends it. */
  function Identify(record: Record, q: int): (r: Outcome<seq<RR>>)
    ensures !r.KeyMissing?
    ensures r.Done? ==> CnameSearch(record).Done? && CnameSearch(record).value <= r.value
  {
    DispatchNeverKeyMissing(BuildersOf(record), q, [], 0);
    DispatchCnameFirst(BuildersOf(record), q);
    Dispatch(BuildersOf(record), q, [], 0)
  }

  // ---------------------------------------------------------------------
  // search
  // ---------------------------------------------------------------------

  /** What the store query hands back: the live items of the domain, or a
      response without an `Items` entry (the KeyError the source catches). */
  datatype StoreReply = Items(records: seq<Record>) | NoItems

  /** The records that `part` gives for every stored item, in store order;
      the first failure ends it. */
  function Concat(records: seq<Record>, part: Record -> Outcome<seq<RR>>): Outcome<seq<RR>>
    decreases |records|
  {
    if records == [] then Done([])
    else
      var done :- Concat(records[..|records| - 1], part);
      var last :- part(records[|records| - 1]);
      Done(done + last)
  }

  /** What `search` returns for a store reply and a query type. */
  function SearchResult(reply: StoreReply, q: int): Outcome<seq<RR>>
  {
    match reply
    case Items(records) => Concat(records, record => Identify(record, q))
    case NoItems => Done([])
  }

  /** `search`: the store's items, each dispatched by `_identify_record`,
      their records concatenated with `+=`. */
  method SearchDomain(reply: StoreReply, q: int) returns (r: Outcome<seq<RR>>)
    ensures r == SearchResult(reply, q)
    ensures !r.KeyMissing?
  {
    var results := if reply.Items? then reply.records else [];
    var identify := record => Identify(record, q);
    var list: seq<RR> := [];
    for i := 0 to |results|
      invariant Concat(results[..i], identify) == Done(list)
    {
      assert results[..i + 1][..i] == results[..i];
      var part := Identify(results[i], q);
      if part.IsFailure() {
        ConcatFailureSticks(results, identify, i + 1);
        return part;
      }
      list := list + part.value;
    }
    assert results[..|results|] == results;
    return Done(list);
  }

  // ---------------------------------------------------------------------
  // Properties of the dispatch
  // ---------------------------------------------------------------------

  /** Types that are not selected add nothing. */
  lemma {:induction false} DispatchSkip(build: RecordType -> Outcome<seq<RR>>, q: int, acc: seq<RR>, k: nat)
    requires forall i :: k <= i < |DispatchOrder| ==> !Selects(q, DispatchOrder[i])
    ensures Dispatch(build, q, acc, k) == Done(acc)
    decreases |DispatchOrder| - k
  {
    if k < |DispatchOrder| {
      assert acc + [] == acc;
      DispatchSkip(build, q, acc, k + 1);
    }
  }

  /** With exactly one selected type from position k on, the dispatch
      appends that type's records alone, or fails as its builder does. */
  lemma {:induction false} DispatchOnly(build: RecordType -> Outcome<seq<RR>>, q: int, acc: seq<RR>, k: nat, j: nat)
    requires k <= j < |DispatchOrder|
    requires forall i :: k <= i < |DispatchOrder| ==> (Selects(q, DispatchOrder[i]) <==> i == j)
    ensures Dispatch(build, q, acc, k) ==
      if build(DispatchOrder[j]).Done?
      then Done(acc + build(DispatchOrder[j]).value)
      else build(DispatchOrder[j])
    decreases |DispatchOrder| - k
  {
    if k == j {
      var part := build(DispatchOrder[j]);
      if part.Done? {
        DispatchSkip(build, q, acc + part.value, k + 1);
      }
    } else {
      assert acc + [] == acc;
      DispatchOnly(build, q, acc, k + 1, j);
    }
  }

  /** The records of every type from position k of the dispatch order on. */
  function FlatFrom(build: RecordType -> Outcome<seq<RR>>, k: nat): seq<RR>
    requires forall t :: build(t).Done?
    decreases |DispatchOrder| - k
  {
    if k >= |DispatchOrder| then []
    else build(DispatchOrder[k]).value + FlatFrom(build, k + 1)
  }

  /** Spelled out, the dispatch order is CNAME, A, AAAA, NS, MX, SOA, TXT,
      SRV, CAA, NAPTR: the order of the nine `+=` steps after the CNAME part. */
  lemma FlatFromOrder(build: RecordType -> Outcome<seq<RR>>)
    requires forall t :: build(t).Done?
    ensures FlatFrom(build, 0) ==
      build(CNAME).value + build(A).value + build(AAAA).value + build(NS).value + build(MX).value
      + build(SOA).value + build(TXT).value + build(SRV).value + build(CAA).value + build(NAPTR).value
  {
    var front := build(CNAME).value + build(A).value + build(AAAA).value + build(NS).value + build(MX).value;
    var back := build(SOA).value + build(TXT).value + build(SRV).value + build(CAA).value + build(NAPTR).value;
    FlatFromFront(build);
    FlatFromBack(build);
    assert front + back == build(CNAME).value + build(A).value + build(AAAA).value + build(NS).value
      + build(MX).value + build(SOA).value + build(TXT).value + build(SRV).value + build(CAA).value
      + build(NAPTR).value;
  }

  /** The first five positions of the dispatch order. */
  lemma FlatFromFront(build: RecordType -> Outcome<seq<RR>>)
    requires forall t :: build(t).Done?
    ensures FlatFrom(build, 0) ==
      build(CNAME).value + build(A).value + build(AAAA).value + build(NS).value + build(MX).value
      + FlatFrom(build, 5)
  {
    var cname, a, aaaa, ns, mx := build(CNAME).value, build(A).value, build(AAAA).value, build(NS).value, build(MX).value;
    var f1, f2, f3, f4, f5 := FlatFrom(build, 1), FlatFrom(build, 2), FlatFrom(build, 3), FlatFrom(build, 4), FlatFrom(build, 5);
    assert FlatFrom(build, 0) == cname + f1;
    assert f1 == a + f2;
    assert f2 == aaaa + f3;
    assert f3 == ns + f4;
    assert f4 == mx + f5;
    assert cname + (a + (aaaa + (ns + (mx + f5)))) == cname + a + aaaa + ns + mx + f5;
  }

  /** The last five positions of the dispatch order. */
  lemma FlatFromBack(build: RecordType -> Outcome<seq<RR>>)
    requires forall t :: build(t).Done?
    ensures FlatFrom(build, 5) ==
      build(SOA).value + build(TXT).value + build(SRV).value + build(CAA).value + build(NAPTR).value
  {
    var soa, txt, srv, caa, naptr := build(SOA).value, build(TXT).value, build(SRV).value, build(CAA).value, build(NAPTR).value;
    var f6, f7, f8, f9, f10 := FlatFrom(build, 6), FlatFrom(build, 7), FlatFrom(build, 8), FlatFrom(build, 9), FlatFrom(build, 10);
    assert FlatFrom(build, 5) == soa + f6;
    assert f6 == txt + f7;
    assert f7 == srv + f8;
    assert f8 == caa + f9;
    assert f9 == naptr + f10;
    assert f10 == [];
    assert soa + (txt + (srv + (caa + (naptr + [])))) == soa + txt + srv + caa + naptr + [];
    assert soa + txt + srv + caa + naptr + [] == soa + txt + srv + caa + naptr;
  }


  /** When every type is selected and no builder fails, the dispatch
      appends every type's records in dispatch order. */
  lemma {:induction false} DispatchAll(build: RecordType -> Outcome<seq<RR>>, acc: seq<RR>, k: nat)
    requires forall t :: build(t).Done?
    ensures Dispatch(build, ANY, acc, k) == Done(acc + FlatFrom(build, k))
    decreases |DispatchOrder| - k
  {
    if k >= |DispatchOrder| {
      assert acc + [] == acc;
    } else {
      var part := build(DispatchOrder[k]).value;
      DispatchAll(build, acc + part, k + 1);
      assert acc + part + FlatFrom(build, k + 1) == acc + (part + FlatFrom(build, k + 1));
    }
  }

  /** The dispatch only ever appends to what was already there. */
  lemma {:induction false} DispatchExtends(build: RecordType -> Outcome<seq<RR>>, q: int, acc: seq<RR>, k: nat)
    ensures Dispatch(build, q, acc, k).Done? ==> acc <= Dispatch(build, q, acc, k).value
    decreases |DispatchOrder| - k
  {
    if k < |DispatchOrder| {
      var t := DispatchOrder[k];
      var part := if Selects(q, t) then build(t) else Done([]);
      if part.Done? {
        DispatchExtends(build, q, acc + part.value, k + 1);
      }
    }
  }

  /** When no builder raises a KeyError, neither does the dispatch. */
  lemma {:induction false} DispatchNeverKeyMissing(build: RecordType -> Outcome<seq<RR>>, q: int, acc: seq<RR>, k: nat)
    requires forall t :: !build(t).KeyMissing?
    ensures !Dispatch(build, q, acc, k).KeyMissing?
    decreases |DispatchOrder| - k
  {
    if k < |DispatchOrder| {
      var t := DispatchOrder[k];
      var part := if Selects(q, t) then build(t) else Done([]);
      if part.Done? {
        DispatchNeverKeyMissing(build, q, acc + part.value, k + 1);
      }
    }
  }

  /** The position of each type other than CNAME in the dispatch order. */
  lemma OrderPosition(t: RecordType) returns (k: nat)
    requires t != CNAME
    ensures 1 <= k < |DispatchOrder| && DispatchOrder[k] == t
    ensures forall i :: 1 <= i < |DispatchOrder| ==> (Selects(t.Code(), DispatchOrder[i]) <==> i == k)
  {
    k := match t
      case A => 1
      case AAAA => 2
      case NS => 3
      case MX => 4
      case SOA => 5
      case TXT => 6
      case SRV => 7
      case CAA => 8
      case NAPTR => 9;
    forall i | 1 <= i < |DispatchOrder|
      ensures Selects(t.Code(), DispatchOrder[i]) <==> i == k
    {
      CodeInjective(t, DispatchOrder[i]);
    }
  }

  /** The CNAME builder's records open every dispatch, or its failure ends it. */
  lemma DispatchCnameFirst(build: RecordType -> Outcome<seq<RR>>, q: int)
    ensures Dispatch(build, q, [], 0) ==
      if build(CNAME).Done? then Dispatch(build, q, build(CNAME).value, 1) else build(CNAME)
    ensures Dispatch(build, q, [], 0).Done? ==>
      build(CNAME).Done? && build(CNAME).value <= Dispatch(build, q, [], 0).value
  {
    if build(CNAME).Done? {
      assert [] + build(CNAME).value == build(CNAME).value;
      DispatchExtends(build, q, build(CNAME).value, 1);
    }
  }

  /** For ANY, a builder that fails at position j or later ends the dispatch. */
  lemma {:induction false} DispatchAnyFailure(build: RecordType -> Outcome<seq<RR>>, acc: seq<RR>, k: nat, j: nat)
    requires k <= j < |DispatchOrder|
    requires !build(DispatchOrder[j]).Done?
    ensures !Dispatch(build, ANY, acc, k).Done?
    decreases |DispatchOrder| - k
  {
    if k < j {
      var part := build(DispatchOrder[k]);
      if part.Done? {
        DispatchAnyFailure(build, acc + part.value, k + 1, j);
      }
    }
  }

  /** For ANY, the dispatch succeeds exactly when no builder fails, and then
      gives every type's records in dispatch order. */
  lemma DispatchAny(build: RecordType -> Outcome<seq<RR>>)
    ensures Dispatch(build, ANY, [], 0).Done? <==> forall t :: build(t).Done?
    ensures (forall t :: build(t).Done?) ==> Dispatch(build, ANY, [], 0) == Done(FlatFrom(build, 0))
  {
    if forall t :: build(t).Done? {
      var all := FlatFrom(build, 0);
      assert [] + all == all;
      DispatchAll(build, [], 0);
    } else {
      var t :| !build(t).Done?;
      if t == CNAME {
        DispatchAnyFailure(build, [], 0, 0);
      } else {
        var j := OrderPosition(t);
        DispatchAnyFailure(build, [], 0, j);
      }
    }
  }

  /** For the code of a type other than CNAME: the CNAME builder's records,
      then that type's, or the failure of the first of the two that fails. */
  lemma DispatchSpecific(build: RecordType -> Outcome<seq<RR>>, t: RecordType)
    requires t != CNAME
    ensures Dispatch(build, t.Code(), [], 0) ==
      if !build(CNAME).Done? then build(CNAME)
      else if !build(t).Done? then build(t)
      else Done(build(CNAME).value + build(t).value)
  {
    var k := OrderPosition(t);
    DispatchCnameFirst(build, t.Code());
    if build(CNAME).Done? {
      DispatchOnly(build, t.Code(), build(CNAME).value, 1, k);
    }
  }

  /** For the code of a type other than CNAME, when that type's builder
      gives records of that type only, every record after the CNAME
      builder's is of that type. */
  lemma DispatchSpecificOwnType(build: RecordType -> Outcome<seq<RR>>, t: RecordType)
    requires t != CNAME
    requires build(t).Done? ==> forall rr :: rr in build(t).value ==> rr.rtype == t.Code()
    ensures Dispatch(build, t.Code(), [], 0).Done? ==>
      forall i :: |build(CNAME).value| <= i < |Dispatch(build, t.Code(), [], 0).value| ==>
        Dispatch(build, t.Code(), [], 0).value[i].rtype == t.Code()
  {
    DispatchSpecific(build, t);
    var cname, own := build(CNAME), build(t);
    if cname.Done? && own.Done? {
      var c: seq<RR>, p: seq<RR> := cname.value, own.value;
      forall i | |c| <= i < |c + p|
        ensures (c + p)[i].rtype == t.Code()
      {
        assert (c + p)[i] == p[i - |c|];
        assert p[i - |c|] in p;
      }
    }
  }

  /** For a query type that selects no type but CNAME, the CNAME builder's
      outcome alone. */
  lemma DispatchCnameOnly(build: RecordType -> Outcome<seq<RR>>, q: int)
    requires q != ANY
    requires forall t: RecordType :: t != CNAME ==> q != t.Code()
    ensures Dispatch(build, q, [], 0) == build(CNAME)
  {
    DispatchCnameFirst(build, q);
    if build(CNAME).Done? {
      assert forall i :: 1 <= i < |DispatchOrder| ==> DispatchOrder[i] != CNAME;
      DispatchSkip(build, q, build(CNAME).value, 1);
    }
  }

  // ---------------------------------------------------------------------
  // Properties of `_identify_record`
  // ---------------------------------------------------------------------

  /** A well-formed CNAME comes first in the dispatch result, whatever the
      query type, including types that select nothing. */
  lemma IdentifyCnameFirst(record: Record, q: int)
    requires CnameWellFormed(record)
    ensures Identify(record, q).Done? ==>
      |Identify(record, q).value| >= 1 &&
      Identify(record, q).value[0] ==
        RR(record["domain"], CNAME.Code(), CnameData(record["CNAME"].fields["domain"]),
           ToInt(record["CNAME"].fields["ttl"]).value)
  {
    DispatchCnameFirst(BuildersOf(record), q);
  }

  /** For ANY, the result is a success exactly when no builder faults, and
      then every type's records in dispatch order: CNAME, A, AAAA, NS, MX,
      SOA, TXT, SRV, CAA, NAPTR. */
  lemma IdentifyAny(record: Record)
    ensures Identify(record, ANY).Done? <==> forall t: RecordType :: TypeSearch(t, record).Done?
    ensures (forall t: RecordType :: TypeSearch(t, record).Done?) ==>
      Identify(record, ANY) == Done(FlatFrom(BuildersOf(record), 0))
  {
    var build := BuildersOf(record);
    var r := Dispatch(build, ANY, [], 0);
    assert Identify(record, ANY) == r;
    DispatchAny(build);
    assert (forall t :: build(t).Done?) <==> (forall t: RecordType :: TypeSearch(t, record).Done?) by {
      assert forall t :: build(t) == TypeSearch(t, record);
    }
  }

  /** For the code of a type other than CNAME, the result is the CNAME part
      followed by that type's records alone. */
  lemma IdentifySpecific(record: Record, t: RecordType)
    requires t != CNAME
    ensures Identify(record, t.Code()).Done? <==>
      CnameSearch(record).Done? && TypeSearch(t, record).Done?
    ensures Identify(record, t.Code()).Done? ==>
      Identify(record, t.Code()).value == CnameSearch(record).value + TypeSearch(t, record).value
  {
    DispatchSpecific(BuildersOf(record), t);
  }

  /** For the code of a type other than CNAME, every record after the CNAME
      part is of that type. */
  lemma IdentifySpecificOwnType(record: Record, t: RecordType)
    requires t != CNAME
    ensures Identify(record, t.Code()).Done? ==>
      forall i :: |CnameSearch(record).value| <= i < |Identify(record, t.Code()).value| ==>
        Identify(record, t.Code()).value[i].rtype == t.Code()
  {
    TypeSearchOwnType(t, record);
    DispatchSpecificOwnType(BuildersOf(record), t);
  }

  /** A query type that is neither ANY nor the code of a type other than
      CNAME gets the CNAME part alone; a CNAME query is one of these. */
  lemma IdentifyUnhandled(record: Record, q: int)
    requires q != ANY
    requires forall t: RecordType :: t != CNAME ==> q != t.Code()
    ensures Identify(record, q) == CnameSearch(record)
  {
    DispatchCnameOnly(BuildersOf(record), q);
  }

  // ---------------------------------------------------------------------
  // Properties of search
  // ---------------------------------------------------------------------

  /** Once a prefix of the store items fails, the whole search fails the
      same way. */
  lemma {:induction false} ConcatFailureSticks(records: seq<Record>, part: Record -> Outcome<seq<RR>>, k: nat)
    requires k <= |records|
    requires !Concat(records[..k], part).Done?
    ensures Concat(records, part) == Concat(records[..k], part)
    decreases |records| - k
  {
    if k == |records| {
      assert records[..k] == records;
    } else {
      var front := records[..|records| - 1];
      assert front[..k] == records[..k];
      ConcatFailureSticks(front, part, k);
    }
  }

  /** The last stored item's records come after those of the items before
      it; a failure is that of the first item that fails. */
  lemma ConcatLast(records: seq<Record>, part: Record -> Outcome<seq<RR>>)
    requires records != []
    ensures
      var front, last := Concat(records[..|records| - 1], part), part(records[|records| - 1]);
      Concat(records, part) ==
        if !front.Done? then front
        else if !last.Done? then last
        else Done(front.value + last.value)
  {
  }

  /** Searching two runs of items is searching the first, then the second,
      and concatenating: the result follows store order, and a failure is
      that of the first item that fails. */
  lemma {:induction false} ConcatAppend(xs: seq<Record>, ys: seq<Record>, part: Record -> Outcome<seq<RR>>)
    ensures Concat(xs + ys, part) ==
      if !Concat(xs, part).Done? then Concat(xs, part)
      else if !Concat(ys, part).Done? then Concat(ys, part)
      else Done(Concat(xs, part).value + Concat(ys, part).value)
    decreases |ys|
  {
    if ys == [] {
      assert xs + ys == xs;
      if Concat(xs, part).Done? {
        assert Concat(xs, part).value + [] == Concat(xs, part).value;
      }
    } else {
      var front, last := ys[..|ys| - 1], ys[|ys| - 1];
      assert (xs + ys)[..|xs + ys| - 1] == xs + front;
      assert (xs + ys)[|xs + ys| - 1] == last;
      ConcatAppend(xs, front, part);
      ConcatLast(xs + ys, part);
      ConcatLast(ys, part);
      var x, f, l := Concat(xs, part), Concat(front, part), part(last);
      if x.Done? && f.Done? && l.Done? {
        assert x.value + f.value + l.value == x.value + (f.value + l.value);
      }
    }
  }

  /** One stored item gives exactly its own records or failure. */
  lemma ConcatSingle(record: Record, part: Record -> Outcome<seq<RR>>)
    ensures Concat([record], part) == part(record)
  {
    assert [record][..0] == [];
    if part(record).Done? {
      assert [] + part(record).value == part(record).value;
    }
  }

  /** When no item's part raises a KeyError, neither does the search. */
  lemma {:induction false} ConcatNeverKeyMissing(records: seq<Record>, part: Record -> Outcome<seq<RR>>)
    requires forall i :: 0 <= i < |records| ==> !part(records[i]).KeyMissing?
    ensures !Concat(records, part).KeyMissing?
    decreases |records|
  {
    if records != [] {
      ConcatNeverKeyMissing(records[..|records| - 1], part);
    }
  }

  /** No KeyError ever leaves `search`, whatever the store holds. */
  lemma SearchNeverKeyMissing(reply: StoreReply, q: int)
    ensures !SearchResult(reply, q).KeyMissing?
  {
    if reply.Items? {
      ConcatNeverKeyMissing(reply.records, record => Identify(record, q));
    }
  }
}
