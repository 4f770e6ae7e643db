/** The per-type record builders of the resolver: each turns the sub-record
    of one type in a stored record into resource records, and any missing
    key anywhere turns the whole type into no records at all. */
module Builders {
  import opened Json
  import opened Dns

  // ---------------------------------------------------------------------
  // Payloads of one list entry
  // ---------------------------------------------------------------------

  /** `v[key]` is absent from a dictionary entry, or present and accepted by `int`. */
  predicate IntIfPresent(e: Value, key: string)
  {
    e.Obj? && (key in e.fields ==> ToInt(e.fields[key]).Done?)
  }

  /** The MX payload of one entry: its exchange label and its preference,
      read in that order. */
  function MxPayload(e: Value): (r: Outcome<RData>)
    ensures r.Done? <==> e.Obj? && "domain" in e.fields && IntField(e, "preference")
    ensures r.Done? ==> r.value == MxData(e.fields["domain"], ToInt(e.fields["preference"]).value)
    ensures r.KeyMissing? <==> e.Obj? && ("domain" !in e.fields || "preference" !in e.fields)
  {
    var exchange :- Get(e, "domain");
    var preference :- GetInt(e, "preference");
    Done(MxData(exchange, preference))
  }

  /** The SRV payload of one entry: priority, weight, port, target. */
  function SrvPayload(e: Value): (r: Outcome<RData>)
    ensures r.Done? <==>
      IntField(e, "priority") && IntField(e, "weight") && IntField(e, "port") && "target" in e.fields
    ensures r.Done? ==>
      r.value == SrvData(ToInt(e.fields["priority"]).value, ToInt(e.fields["weight"]).value,
                         ToInt(e.fields["port"]).value, e.fields["target"])
    ensures r.KeyMissing? <==>
      e.Obj? && ("priority" !in e.fields || (IntField(e, "priority") &&
                ("weight" !in e.fields || (IntField(e, "weight") &&
                ("port" !in e.fields || (IntField(e, "port") && "target" !in e.fields))))))
  {
    var priority :- GetInt(e, "priority");
    var weight :- GetInt(e, "weight");
    var port :- GetInt(e, "port");
    var target :- Get(e, "target");
    Done(SrvData(priority, weight, port, target))
  }

  /** The CAA payload of one entry: flags, tag, value. */
  function CaaPayload(e: Value): (r: Outcome<RData>)
    ensures r.Done? <==> IntField(e, "flags") && "tag" in e.fields && "value" in e.fields
    ensures r.Done? ==>
      r.value == CaaData(ToInt(e.fields["flags"]).value, e.fields["tag"], e.fields["value"])
    ensures r.KeyMissing? <==>
      IntIfPresent(e, "flags") && ("flags" !in e.fields || "tag" !in e.fields || "value" !in e.fields)
  {
    var flags :- GetInt(e, "flags");
    var tag :- Get(e, "tag");
    var value :- Get(e, "value");
    Done(CaaData(flags, tag, value))
  }

  /** `(e.get("regexp") or "").encode('utf-8')`. */
  function Regexp(e: Value): Outcome<string>
  {
    if !e.Obj? then Fault
    else
      var x := if "regexp" in e.fields then e.fields["regexp"] else Null;
      if Truthy(x) then Encode(x) else Done("")
  }

  /** The NAPTR regexp may be absent, falsy, or a string. */
  predicate RegexpOk(e: Value)
    requires e.Obj?
  {
    "regexp" !in e.fields || !Truthy(e.fields["regexp"]) || e.fields["regexp"].Str?
  }

  /** The NAPTR payload of one entry: order, preference, flags, service,
      regexp, replacement. Flags and service are required strings; only the
      regexp falls back to the empty string. */
  function NaptrPayload(e: Value): (r: Outcome<RData>)
    ensures r.Done? <==>
      && IntField(e, "order") && IntField(e, "preference")
      && "flags" in e.fields && e.fields["flags"].Str?
      && "service" in e.fields && e.fields["service"].Str?
      && RegexpOk(e) && "replacement" in e.fields
    ensures r.Done? ==>
      && r.value.NaptrData?
      && r.value.order == ToInt(e.fields["order"]).value
      && r.value.preference == ToInt(e.fields["preference"]).value
      && r.value.naptrFlags == e.fields["flags"].s
      && r.value.service == e.fields["service"].s
      && r.value.replacement == e.fields["replacement"]
      && r.value.regexp == (if "regexp" in e.fields && e.fields["regexp"].Str? then e.fields["regexp"].s else "")
    ensures r.KeyMissing? <==>
      e.Obj? && ("order" !in e.fields || (IntField(e, "order") &&
                ("preference" !in e.fields || (IntField(e, "preference") &&
                ("flags" !in e.fields || (e.fields["flags"].Str? &&
                ("service" !in e.fields || (e.fields["service"].Str? && RegexpOk(e) &&
                 "replacement" !in e.fields))))))))
  {
    var order :- GetInt(e, "order");
    var preference :- GetInt(e, "preference");
    var flagsValue :- Get(e, "flags");
    var flags :- Encode(flagsValue);
    var serviceValue :- Get(e, "service");
    var service :- Encode(serviceValue);
    var regexp :- Regexp(e);
    var replacement :- Get(e, "replacement");
    Done(NaptrData(order, preference, flags, service, regexp, replacement))
  }

  /** The payload one list entry gives for a list-valued type. */
  function Payload(t: RecordType, e: Value): Outcome<RData>
    requires t.IsListValued()
  {
    match t
    case A => Done(AData(e))
    case AAAA => Done(AaaaData(e))
    case NS => Done(NsData(e))
    case MX => MxPayload(e)
    case TXT => Done(TxtData(e))
    case SRV => SrvPayload(e)
    case CAA => CaaPayload(e)
    case NAPTR => NaptrPayload(e)
  }

  // ---------------------------------------------------------------------
  // List-valued types: A, AAAA, NS, MX, TXT, SRV, CAA, NAPTR
  // ---------------------------------------------------------------------

  /** The record built for one list entry: the owner name is read first,
      then the payload. */
  function Entry(t: RecordType, record: Record, ttl: int, e: Value): Outcome<RR>
    requires t.IsListValued()
  {
    var name :- Lookup(record, "domain");
    var data :- Payload(t, e);
    Done(RR(name, t.Code(), data, ttl))
  }

  /** The records built for a run of entries, in order; the first entry that
      fails decides the outcome. */
  function Entries(t: RecordType, record: Record, ttl: int, es: seq<Value>): Outcome<seq<RR>>
    requires t.IsListValued()
    decreases |es|
  {
    if es == [] then Done([])
    else
      var built :- Entries(t, record, ttl, es[..|es| - 1]);
      var rr :- Entry(t, record, ttl, es[|es| - 1]);
      Done(built + [rr])
  }

  /** The body of the `try` block of a list-valued builder. */
  function ListBody(t: RecordType, record: Record): Outcome<seq<RR>>
    requires t.IsListValued()
  {
    var sub :- Lookup(record, t.Key());
    var ttl :- GetInt(sub, "ttl");
    var values :- Get(sub, "value");
    var es :- Iterate(values);
    Entries(t, record, ttl, es)
  }

  /** `except KeyError: return []`. */
  function Caught(o: Outcome<seq<RR>>): (r: Outcome<seq<RR>>)
    ensures !r.KeyMissing?
    ensures o.KeyMissing? ==> r == Done([])
    ensures !o.KeyMissing? ==> r == o
  {
    if o.KeyMissing? then Done([]) else o
  }

  /** The imperative body of a list-valued builder: a list filled with one
      `append` per entry. */
  method RunListBody(t: RecordType, record: Record) returns (r: Outcome<seq<RR>>)
    requires t.IsListValued()
    ensures r == ListBody(t, record)
  {
    var sub :- Lookup(record, t.Key());
    var ttl :- GetInt(sub, "ttl");
    var values :- Get(sub, "value");
    var es :- Iterate(values);
    r := BuildEntries(t, record, ttl, es);
  }

  /** The `for` loop of a list-valued builder: one `append` per entry, the
      first entry that fails ending it. */
  method BuildEntries(t: RecordType, record: Record, ttl: int, es: seq<Value>) returns (r: Outcome<seq<RR>>)
    requires t.IsListValued()
    ensures r == Entries(t, record, ttl, es)
  {
    var list: seq<RR> := [];
    for i := 0 to |es|
      invariant Entries(t, record, ttl, es[..i]) == Done(list)
    {
      var rr := Entry(t, record, ttl, es[i]);
      assert es[..i + 1][..i] == es[..i];
      if rr.IsFailure() {
        EntriesFailureSticks(t, record, ttl, es, i + 1);
        return rr.PropagateFailure();
      }
      list := list + [rr.value];
    }
    assert es[..|es|] == es;
    return Done(list);
  }

  /** A list-valued builder: `_a_search`, `_aaaa_search`, `_ns_search`,
      `_mx_search`, `_txt_search`, `_srv_search`, `_caa_search` and
      `_naptr_search` differ only in their type. A KeyError anywhere gives
      no records; any other exception escapes. */
  method ListSearch(t: RecordType, record: Record) returns (r: Outcome<seq<RR>>)
    requires t.IsListValued()
    ensures r == TypeSearch(t, record)
    ensures !r.KeyMissing?
  {
    r := RunListBody(t, record);
    if r.KeyMissing? {
      r := Done([]);
    }
  }

  // ---------------------------------------------------------------------
  // Single-valued types: CNAME and SOA
  // ---------------------------------------------------------------------

  /** A sub-record of type CNAME from which one record can be built. */
  predicate CnameWellFormed(record: Record)
  {
    && "CNAME" in record && IntField(record["CNAME"], "ttl")
    && "domain" in record && "domain" in record["CNAME"].fields
  }

  /** The first lookup of `_cname_search` that fails is a missing key: the
      `CNAME` sub-record, its `ttl`, the record's `domain` or the
      sub-record's `domain`. */
  predicate CnameLacksKey(record: Record)
  {
    "CNAME" !in record || (record["CNAME"].Obj? && ("ttl" !in record["CNAME"].fields ||
      (IntField(record["CNAME"], "ttl") && ("domain" !in record || "domain" !in record["CNAME"].fields))))
  }

  /** `_cname_search`: at most one CNAME record, owned by the record's
      domain and pointing at the sub-record's own `domain`. */
  function CnameSearch(record: Record): (r: Outcome<seq<RR>>)
    ensures !r.KeyMissing?
    ensures r.Done? ==> |r.value| <= 1
    ensures r.Done? && |r.value| == 1 <==> CnameWellFormed(record)
    ensures CnameWellFormed(record) ==>
      r == Done([RR(record["domain"], CNAME.Code(), CnameData(record["CNAME"].fields["domain"]),
                    ToInt(record["CNAME"].fields["ttl"]).value)])
    ensures r == Done([]) <==> CnameLacksKey(record)
  {
    Caught(
      var sub :- Lookup(record, "CNAME");
      var ttl :- GetInt(sub, "ttl");
      var name :- Lookup(record, "domain");
      var alias :- Get(sub, "domain");
      Done([RR(name, CNAME.Code(), CnameData(alias), ttl)]))
  }

  /** `list(map(int, xs))`: every element converted, in order, or the first
      conversion that fails. */
  function ToInts(xs: seq<Value>): (r: Outcome<seq<int>>)
    ensures !r.KeyMissing?
    ensures r.Done? <==> forall i :: 0 <= i < |xs| ==> ToInt(xs[i]).Done?
    ensures r.Done? ==> |r.value| == |xs| && forall i :: 0 <= i < |xs| ==> ToInt(xs[i]) == Done(r.value[i])
  {
    if xs == [] then Done([])
    else
      var n :- ToInt(xs[0]);
      var rest :- ToInts(xs[1..]);
      Done([n] + rest)
  }

  /** A sub-record of type SOA from which one record can be built. */
  predicate SoaWellFormed(record: Record)
  {
    && "SOA" in record && IntField(record["SOA"], "ttl")
    && "times" in record["SOA"].fields && Iterate(record["SOA"].fields["times"]).Done?
    && ToInts(Iterate(record["SOA"].fields["times"]).value).Done?
    && "domain" in record && "mname" in record["SOA"].fields && "rname" in record["SOA"].fields
  }

  /** The first lookup of `_soa_search` that fails is a missing key: the
      `SOA` sub-record, its `ttl` or `times`, the record's `domain`, or the
      sub-record's `mname` or `rname`. */
  predicate SoaLacksKey(record: Record)
  {
    "SOA" !in record || (record["SOA"].Obj? && ("ttl" !in record["SOA"].fields ||
      (IntField(record["SOA"], "ttl") && ("times" !in record["SOA"].fields ||
        (Iterate(record["SOA"].fields["times"]).Done? && ToInts(Iterate(record["SOA"].fields["times"]).value).Done?
         && ("domain" !in record || "mname" !in record["SOA"].fields || "rname" !in record["SOA"].fields))))))
  }

  /** `_soa_search`: at most one SOA record, whose times are the stored
      times converted one by one. */
  function SoaSearch(record: Record): (r: Outcome<seq<RR>>)
    ensures !r.KeyMissing?
    ensures r.Done? ==> |r.value| <= 1
    ensures r.Done? && |r.value| == 1 <==> SoaWellFormed(record)
    ensures SoaWellFormed(record) ==>
      var sub := record["SOA"].fields;
      var stored := Iterate(sub["times"]).value;
      && r.Done? && r.value[0].rname == record["domain"] && r.value[0].rtype == SOA.Code()
      && r.value[0].ttl == ToInt(sub["ttl"]).value
      && r.value[0].rdata.SoaData?
      && r.value[0].rdata.mname == sub["mname"] && r.value[0].rdata.rname == sub["rname"]
      && |r.value[0].rdata.times| == |stored|
      && forall i :: 0 <= i < |stored| ==> ToInt(stored[i]) == Done(r.value[0].rdata.times[i])
    ensures r == Done([]) <==> SoaLacksKey(record)
  {
    Caught(
      var sub :- Lookup(record, "SOA");
      var ttl :- GetInt(sub, "ttl");
      var stored :- Get(sub, "times");
      var items :- Iterate(stored);
      var times :- ToInts(items);
      var name :- Lookup(record, "domain");
      var mname :- Get(sub, "mname");
      var rname :- Get(sub, "rname");
      Done([RR(name, SOA.Code(), SoaData(mname, rname, times), ttl)]))
  }

  // ---------------------------------------------------------------------
  // Any type
  // ---------------------------------------------------------------------

  /** The builder of one type, with its KeyErrors caught. */
  function TypeSearch(t: RecordType, record: Record): (r: Outcome<seq<RR>>)
    ensures !r.KeyMissing?
  {
    match t
    case CNAME => CnameSearch(record)
    case SOA => SoaSearch(record)
    case _ => Caught(ListBody(t, record))
  }

  // ---------------------------------------------------------------------
  // Properties of the list-valued builders
  // ---------------------------------------------------------------------

  /** Once a prefix of the entries fails, the whole run fails the same way. */
  lemma {:induction false} EntriesFailureSticks(t: RecordType, record: Record, ttl: int, es: seq<Value>, k: nat)
    requires t.IsListValued()
    requires k <= |es|
    requires !Entries(t, record, ttl, es[..k]).Done?
    ensures Entries(t, record, ttl, es) == Entries(t, record, ttl, es[..k])
    decreases |es| - k
  {
    if k == |es| {
      assert es[..k] == es;
    } else {
      var front := es[..|es| - 1];
      assert front[..k] == es[..k];
      EntriesFailureSticks(t, record, ttl, front, k);
    }
  }

  /** A run succeeds exactly when every entry does, and then it holds one
      record per entry, in entry order. */
  lemma {:induction false} EntriesDone(t: RecordType, record: Record, ttl: int, es: seq<Value>)
    requires t.IsListValued()
    ensures Entries(t, record, ttl, es).Done? <==>
      forall i :: 0 <= i < |es| ==> Entry(t, record, ttl, es[i]).Done?
    ensures Entries(t, record, ttl, es).Done? ==>
      var rrs := Entries(t, record, ttl, es).value;
      |rrs| == |es| && forall i :: 0 <= i < |es| ==> Entry(t, record, ttl, es[i]) == Done(rrs[i])
    decreases |es|
  {
    if es != [] {
      var front := es[..|es| - 1];
      EntriesDone(t, record, ttl, front);
      assert forall i :: 0 <= i < |front| ==> front[i] == es[i];
    }
  }

  /** When entries before position k all succeed and entry k fails, the
      run fails the way entry k does: a KeyError in entry k empties the
      whole type, whatever the later entries hold. */
  lemma {:induction false} EntriesFirstFailure(t: RecordType, record: Record, ttl: int, es: seq<Value>, k: nat)
    requires t.IsListValued()
    requires k < |es|
    requires forall j :: 0 <= j < k ==> Entry(t, record, ttl, es[j]).Done?
    requires !Entry(t, record, ttl, es[k]).Done?
    ensures !Entries(t, record, ttl, es).Done?
    ensures Entries(t, record, ttl, es).KeyMissing? == Entry(t, record, ttl, es[k]).KeyMissing?
  {
    var prefix := es[..k];
    EntriesDone(t, record, ttl, prefix);
    assert forall j :: 0 <= j < k ==> prefix[j] == es[j];
    assert es[..k + 1][..k] == prefix;
    EntriesFailureSticks(t, record, ttl, es, k + 1);
  }

  /** Every record a list-valued builder returns: one per stored value, in
      list order, owned by the record's `domain`, with the builder's own
      type, the sub-record's ttl and the payload read from its entry. */
  lemma ListSearchShape(t: RecordType, record: Record, rrs: seq<RR>)
    requires t.IsListValued()
    requires Caught(ListBody(t, record)) == Done(rrs) && rrs != []
    ensures t.Key() in record && IntField(record[t.Key()], "ttl")
    ensures "value" in record[t.Key()].fields && "domain" in record
    ensures
      var sub := record[t.Key()].fields;
      var es := Iterate(sub["value"]);
      && es.Done? && |rrs| == |es.value|
      && forall i :: 0 <= i < |rrs| ==>
           && rrs[i].rname == record["domain"] && rrs[i].rtype == t.Code()
           && rrs[i].ttl == ToInt(sub["ttl"]).value
           && Payload(t, es.value[i]) == Done(rrs[i].rdata)
  {
    var sub := record[t.Key()];
    var ttl := ToInt(sub.fields["ttl"]).value;
    var es := Iterate(sub.fields["value"]).value;
    EntriesDone(t, record, ttl, es);
  }

  /** A well-formed sub-record whose entries all build gives one record per
      stored value, in list order, each built from its own entry: the
      builder never drops records it can build. */
  lemma ListSearchComplete(t: RecordType, record: Record)
    requires t.IsListValued()
    requires t.Key() in record && IntField(record[t.Key()], "ttl") && "value" in record[t.Key()].fields
    requires Iterate(record[t.Key()].fields["value"]).Done?
    requires Iterate(record[t.Key()].fields["value"]).value != [] ==> "domain" in record
    requires forall i :: 0 <= i < |Iterate(record[t.Key()].fields["value"]).value| ==>
      Payload(t, Iterate(record[t.Key()].fields["value"]).value[i]).Done?
    ensures
      var es := Iterate(record[t.Key()].fields["value"]).value;
      var r := Caught(ListBody(t, record));
      && r.Done? && |r.value| == |es|
      && forall i :: 0 <= i < |es| ==>
           r.value[i] == RR(record["domain"], t.Code(), Payload(t, es[i]).value,
                            ToInt(record[t.Key()].fields["ttl"]).value)
  {
    var ttl := ToInt(record[t.Key()].fields["ttl"]).value;
    var es := Iterate(record[t.Key()].fields["value"]).value;
    EntriesDone(t, record, ttl, es);
  }

  /** The builder is all-or-nothing: a missing type key, ttl, value list,
      owner `domain` or per-entry field yields no records at all, never a
      partial list. */
  lemma ListSearchAllOrNothing(t: RecordType, record: Record)
    requires t.IsListValued()
    ensures t.Key() !in record ==> Caught(ListBody(t, record)) == Done([])
    ensures t.Key() in record && record[t.Key()].Obj? && "ttl" !in record[t.Key()].fields ==>
      Caught(ListBody(t, record)) == Done([])
    ensures t.Key() in record && IntField(record[t.Key()], "ttl") && "value" !in record[t.Key()].fields ==>
      Caught(ListBody(t, record)) == Done([])
    ensures (t.Key() in record && IntField(record[t.Key()], "ttl") && "value" in record[t.Key()].fields
             && Iterate(record[t.Key()].fields["value"]).Done?
             && Iterate(record[t.Key()].fields["value"]).value != [] && "domain" !in record) ==>
      Caught(ListBody(t, record)) == Done([])
    ensures forall k: nat ::
      t.Key() in record && IntField(record[t.Key()], "ttl") && "value" in record[t.Key()].fields
      && Iterate(record[t.Key()].fields["value"]).Done?
      && k < |Iterate(record[t.Key()].fields["value"]).value|
      && (forall j :: 0 <= j < k ==> Payload(t, Iterate(record[t.Key()].fields["value"]).value[j]).Done?)
      && Payload(t, Iterate(record[t.Key()].fields["value"]).value[k]).KeyMissing?
      ==> Caught(ListBody(t, record)) == Done([])
  {
    if t.Key() in record && IntField(record[t.Key()], "ttl") && "value" in record[t.Key()].fields
      && Iterate(record[t.Key()].fields["value"]).Done?
    {
      var ttl := ToInt(record[t.Key()].fields["ttl"]).value;
      var es := Iterate(record[t.Key()].fields["value"]).value;
      if es != [] && "domain" !in record {
        EntriesFirstFailure(t, record, ttl, es, 0);
      }
      forall k: nat |
        && k < |es|
        && (forall j :: 0 <= j < k ==> Payload(t, es[j]).Done?)
        && Payload(t, es[k]).KeyMissing?
        ensures Caught(ListBody(t, record)) == Done([])
      {
        if "domain" in record {
          EntriesFirstFailure(t, record, ttl, es, k);
        } else {
          EntriesFirstFailure(t, record, ttl, es, 0);
        }
      }
    }
  }

  /** Only a KeyError is caught: a sub-record that is not a dictionary, a
      `ttl` that `int` rejects, a `value` that cannot be iterated, or a first
      failing entry whose payload raises anything else escapes the builder. */
  lemma ListSearchFaults(t: RecordType, record: Record)
    requires t.IsListValued()
    ensures t.Key() in record && !record[t.Key()].Obj? ==> Caught(ListBody(t, record)).Fault?
    ensures (t.Key() in record && record[t.Key()].Obj? && "ttl" in record[t.Key()].fields
             && ToInt(record[t.Key()].fields["ttl"]).Fault?) ==> Caught(ListBody(t, record)).Fault?
    ensures (t.Key() in record && IntField(record[t.Key()], "ttl") && "value" in record[t.Key()].fields
             && Iterate(record[t.Key()].fields["value"]).Fault?) ==> Caught(ListBody(t, record)).Fault?
    ensures forall k: nat ::
      t.Key() in record && IntField(record[t.Key()], "ttl") && "value" in record[t.Key()].fields
      && Iterate(record[t.Key()].fields["value"]).Done? && "domain" in record
      && k < |Iterate(record[t.Key()].fields["value"]).value|
      && (forall j :: 0 <= j < k ==> Payload(t, Iterate(record[t.Key()].fields["value"]).value[j]).Done?)
      && Payload(t, Iterate(record[t.Key()].fields["value"]).value[k]).Fault?
      ==> Caught(ListBody(t, record)).Fault?
  {
    if t.Key() in record && IntField(record[t.Key()], "ttl") && "value" in record[t.Key()].fields
      && Iterate(record[t.Key()].fields["value"]).Done? && "domain" in record
    {
      var ttl := ToInt(record[t.Key()].fields["ttl"]).value;
      var es := Iterate(record[t.Key()].fields["value"]).value;
      forall k: nat |
        && k < |es|
        && (forall j :: 0 <= j < k ==> Payload(t, es[j]).Done?)
        && Payload(t, es[k]).Fault?
        ensures Caught(ListBody(t, record)).Fault?
      {
        EntriesFirstFailure(t, record, ttl, es, k);
      }
    }
  }

  /** Every record of one type's builder is owned by the record's `domain`
      and carries that type's code. */
  lemma TypeSearchOwnType(t: RecordType, record: Record)
    ensures TypeSearch(t, record).Done? ==>
      forall rr :: rr in TypeSearch(t, record).value ==>
        "domain" in record && rr.rname == record["domain"] && rr.rtype == t.Code()
  {
    if t.IsListValued() {
      var r := TypeSearch(t, record);
      if r.Done? && r.value != [] {
        ListSearchShape(t, record, r.value);
      }
    }
  }
}
