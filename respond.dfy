/** Assembly of a DNS response (`UDPHandler.respond_to_client`): the
    resolver's sections for every question of a request, the request's own
    additional records, and the header bits of RFC 1035 section 4.1.1. */
module Respond {
  import opened Json
  import opened Dns
  import opened Builders
  import opened Search

  /** RCODE values of RFC 1035 section 4.1.1. */
  const NOERROR: int := 0
  const REFUSED: int := 5

  /** One question of a request; the name is already in its IDNA form. */
  datatype Question = Question(qname: string, qtype: int)

  /** The header fields the handler reads or sets. */
  datatype Header = Header(id: int, qr: bool, aa: bool, ra: bool, rd: bool, rcode: int)

  /** A DNS message: header, questions and the answer, authority and
      additional sections, over a record type R. */
  datatype Message<R> = Message(header: Header, questions: seq<Question>, rr: seq<R>, auth: seq<R>, ar: seq<R>)

  /** What the resolver returns for one question. */
  datatype Sections<R> = Sections(answer: seq<R>, authority: seq<R>, additional: seq<R>)

  /** The sections accumulated over a run of questions, in question order:
      each question's answer and authority, and its additional records
      followed by the request's own additional records ar. */
  function Gathered<R>(qs: seq<Question>, resolve: (string, int) -> Sections<R>, ar: seq<R>): Sections<R>
    decreases |qs|
  {
    if qs == [] then Sections([], [], [])
    else
      var acc := Gathered(qs[..|qs| - 1], resolve, ar);
      var q := qs[|qs| - 1];
      var s := resolve(q.qname, q.qtype);
      Sections(acc.answer + s.answer, acc.authority + s.authority, acc.additional + s.additional + ar)
  }

  /** `respond_to_client` between parsing the request and packing the
      response: the question loop, then the AA bit and the RCODE. */
  method RespondToClient<R>(request: Message<R>, resolve: (string, int) -> Sections<R>) returns (response: Message<R>)
    ensures response.questions == request.questions
    ensures response.rr == Gathered(request.questions, resolve, request.ar).answer
    ensures response.auth == Gathered(request.questions, resolve, request.ar).authority
    ensures response.ar == Gathered(request.questions, resolve, request.ar).additional
    ensures response.header.id == request.header.id && response.header.rd == request.header.rd
    ensures response.header.qr && !response.header.ra
    ensures response.header.aa <==> response.auth != []
    ensures response.header.rcode == if response.rr == [] && response.auth == [] then REFUSED else NOERROR
    ensures !(response.header.aa && response.header.rcode == REFUSED)
  {
    var recursionDesired := request.header.rd;
    var id := request.header.id;
    var answer: seq<R>, authority: seq<R>, additional: seq<R> := [], [], [];
    var aa, rcode := false, NOERROR;
    var qs := request.questions;
    for i := 0 to |qs|
      invariant Gathered(qs[..i], resolve, request.ar) == Sections(answer, authority, additional)
    {
      assert qs[..i + 1][..i] == qs[..i];
      var sets := resolve(qs[i].qname, qs[i].qtype);
      answer := answer + sets.answer;
      authority := authority + sets.authority;
      additional := additional + sets.additional;
      additional := additional + request.ar;
    }
    assert qs[..|qs|] == qs;
    if authority != [] {
      aa := true;
    } else if answer == [] && authority == [] {
      rcode := REFUSED;
    }
    response := Message(Header(id, true, aa, false, recursionDesired, rcode), request.questions,
                        answer, authority, additional);
  }

  // ---------------------------------------------------------------------
  // Properties of the accumulated sections
  // ---------------------------------------------------------------------

  /** One question: its own sections, the request's additional records
      after its own. */
  lemma GatheredSingle<R>(q: Question, resolve: (string, int) -> Sections<R>, ar: seq<R>)
    ensures var s := resolve(q.qname, q.qtype);
      Gathered([q], resolve, ar) == Sections(s.answer, s.authority, s.additional + ar)
  {
    assert [q][..0] == [];
    var s := resolve(q.qname, q.qtype);
    assert [] + s.answer == s.answer;
    assert [] + s.authority == s.authority;
    assert [] + s.additional + ar == s.additional + ar;
  }

  /** Two runs of questions give the first run's sections followed by the
      second's: every section follows question order. */
  lemma {:induction false} GatheredAppend<R>(xs: seq<Question>, ys: seq<Question>, resolve: (string, int) -> Sections<R>, ar: seq<R>)
    ensures var g, gx, gy := Gathered(xs + ys, resolve, ar), Gathered(xs, resolve, ar), Gathered(ys, resolve, ar);
      && g.answer == gx.answer + gy.answer
      && g.authority == gx.authority + gy.authority
      && g.additional == gx.additional + gy.additional
    decreases |ys|
  {
    if ys == [] {
      assert xs + ys == xs;
    } else {
      var front, last := ys[..|ys| - 1], ys[|ys| - 1];
      assert (xs + ys)[..|xs + ys| - 1] == xs + front;
      assert (xs + ys)[|xs + ys| - 1] == last;
      GatheredAppend(xs, front, resolve, ar);
      var gx, gf := Gathered(xs, resolve, ar), Gathered(front, resolve, ar);
      var s := resolve(last.qname, last.qtype);
      assert gx.answer + gf.answer + s.answer == gx.answer + (gf.answer + s.answer);
      assert gx.authority + gf.authority + s.authority == gx.authority + (gf.authority + s.authority);
      assert gx.additional + gf.additional + s.additional + ar
          == gx.additional + (gf.additional + s.additional + ar);
    }
  }

  /** The accumulated answer and authority are empty exactly when every
      question's are: RCODE 5 means that no question found anything. */
  lemma {:induction false} GatheredEmpty<R>(qs: seq<Question>, resolve: (string, int) -> Sections<R>, ar: seq<R>)
    ensures Gathered(qs, resolve, ar).answer == [] <==>
      forall q :: q in qs ==> resolve(q.qname, q.qtype).answer == []
    ensures Gathered(qs, resolve, ar).authority == [] <==>
      forall q :: q in qs ==> resolve(q.qname, q.qtype).authority == []
    decreases |qs|
  {
    if qs != [] {
      var front, last := qs[..|qs| - 1], qs[|qs| - 1];
      GatheredEmpty(front, resolve, ar);
      assert forall q :: q in qs <==> q in front || q == last by {
        assert qs == front + [last];
      }
      var acc, own := Gathered(front, resolve, ar), resolve(last.qname, last.qtype);
      assert |Gathered(qs, resolve, ar).answer| == |acc.answer| + |own.answer|;
      assert |Gathered(qs, resolve, ar).authority| == |acc.authority| + |own.authority|;
    }
  }

  /** The request's additional records are appended once per question. */
  lemma {:induction false} AdditionalCount<R>(qs: seq<Question>, resolve: (string, int) -> Sections<R>, ar: seq<R>)
    ensures |Gathered(qs, resolve, ar).additional| == |Gathered(qs, resolve, []).additional| + |qs| * |ar|
    decreases |qs|
  {
    if qs != [] {
      var n := |qs| - 1;
      AdditionalCount(qs[..n], resolve, ar);
      assert |qs| * |ar| == n * |ar| + |ar|;
      var s := resolve(qs[n].qname, qs[n].qtype);
      assert Gathered(qs, resolve, []).additional == Gathered(qs[..n], resolve, []).additional + s.additional + [];
    }
  }

  /** n copies of s, one after the other. */
  function Repeat<R>(s: seq<R>, n: nat): (r: seq<R>)
    ensures |r| == n * |s|
  {
    if n == 0 then [] else Repeat(s, n - 1) + s
  }

  /** When the resolver gives no additional records, the additional section
      is the request's own additional records once per question. */
  lemma {:induction false} AdditionalWithoutGlue<R>(qs: seq<Question>, resolve: (string, int) -> Sections<R>, ar: seq<R>)
    requires forall i :: 0 <= i < |qs| ==> resolve(qs[i].qname, qs[i].qtype).additional == []
    ensures Gathered(qs, resolve, ar).additional == Repeat(ar, |qs|)
    decreases |qs|
  {
    if qs != [] {
      var n := |qs| - 1;
      assert forall i :: 0 <= i < n ==> qs[..n][i] == qs[i];
      AdditionalWithoutGlue(qs[..n], resolve, ar);
      assert Repeat(ar, n) + [] + ar == Repeat(ar, n) + ar;
    }
  }

  // ---------------------------------------------------------------------
  // The question loop as written: `search` returns one list of records,
  // which the loop unpacks into three sections
  // ---------------------------------------------------------------------

  /** The Python objects the unpacking sees: the list `search` returns, or
      one record taken out of it. */
  datatype Found = RecordList(items: seq<RR>) | OneRecord(record: RR)

  /** `rr_set, auth_set, addi_set = found`: a ValueError unless the list has
      exactly three elements, which become the three names. */
  function Unpack(found: Found): (r: Outcome<(Found, Found, Found)>)
    ensures r.Done? <==> found.RecordList? && |found.items| == 3
  {
    match found
    case RecordList(items) =>
      if |items| == 3 then Done((OneRecord(items[0]), OneRecord(items[1]), OneRecord(items[2]))) else Fault
    case OneRecord(_) => Fault
  }

  /** `acc += found`: a list extends acc; a single record is not iterable,
      a TypeError. */
  function Extend(acc: seq<RR>, found: Found): (r: Outcome<seq<RR>>)
    ensures r.Done? <==> found.RecordList?
    ensures found.RecordList? ==> r.value == acc + found.items
  {
    match found
    case RecordList(items) => Done(acc + items)
    case OneRecord(_) => Fault
  }

  /** One pass of the question loop as written, on what `search` returned. */
  function StepAsWritten(acc: Sections<RR>, found: Outcome<seq<RR>>, ar: seq<RR>): Outcome<Sections<RR>>
  {
    match found
    case Done(list) =>
      (match Unpack(RecordList(list))
       case Done(sets) =>
         (match (Extend(acc.answer, sets.0), Extend(acc.authority, sets.1), Extend(acc.additional, sets.2))
          case (Done(answer), Done(authority), Done(additional)) =>
            Done(Sections(answer, authority, additional + ar))
          case _ => Fault)
       case _ => Fault)
    case _ => Fault
  }

  /** The question loop as written, `search` answering from the store's
      reply for each domain. */
  function GatheredAsWritten(qs: seq<Question>, store: string -> StoreReply, ar: seq<RR>): Outcome<Sections<RR>>
    decreases |qs|
  {
    if qs == [] then Done(Sections([], [], []))
    else
      var acc :- GatheredAsWritten(qs[..|qs| - 1], store, ar);
      var q := qs[|qs| - 1];
      StepAsWritten(acc, SearchResult(store(q.qname), q.qtype), ar)
  }

  /** As written, every pass of the loop raises: the list `search` returns
      either does not have three elements (ValueError) or has three records,
      which `+=` cannot iterate (TypeError). */
  lemma StepAsWrittenRaises(acc: Sections<RR>, found: Outcome<seq<RR>>, ar: seq<RR>)
    ensures !StepAsWritten(acc, found, ar).Done?
  {
    if found.Done? && |found.value| == 3 {
      assert Unpack(RecordList(found.value)).value.0.OneRecord?;
    }
  }

  /** As written, the loop completes, and a response is built, exactly for
      requests without questions, whatever the store holds. */
  lemma GatheredAsWrittenOnlyWithoutQuestions(qs: seq<Question>, store: string -> StoreReply, ar: seq<RR>)
    ensures GatheredAsWritten(qs, store, ar).Done? <==> qs == []
  {
    if qs != [] {
      var q := qs[|qs| - 1];
      var acc := GatheredAsWritten(qs[..|qs| - 1], store, ar);
      if acc.Done? {
        StepAsWrittenRaises(acc.value, SearchResult(store(q.qname), q.qtype), ar);
      }
    }
  }

  /** A stored item for example.com with one A entry. */
  function ExampleItem(): Record
  {
    map["domain" := Str("example.com"),
        "A" := Obj(map["ttl" := Num(300), "value" := List([Str("192.0.2.1")])])]
  }

  /** A query for the A record of that domain: `search` returns one record,
      and unpacking it into three raises. */
  lemma ExampleQueryRaises()
    ensures SearchResult(Items([ExampleItem()]), 1) ==
      Done([RR(Str("example.com"), 1, AData(Str("192.0.2.1")), 300)])
    ensures !GatheredAsWritten([Question("example.com", 1)], _ => Items([ExampleItem()]), []).Done?
  {
    var item := ExampleItem();
    var e := Str("192.0.2.1");
    var rr := RR(Str("example.com"), 1, AData(e), 300);
    assert Entry(A, item, 300, e) == Done(rr);
    assert Entries(A, item, 300, [e]) == Done([] + [rr]) by {
      assert [e][..0] == [];
    }
    assert [] + [rr] == [rr];
    var sub := item["A"];
    assert GetInt(sub, "ttl") == Done(300);
    assert Get(sub, "value") == Done(List([e]));
    assert ListBody(A, item) == Done([rr]);
    assert TypeSearch(A, item) == Done([rr]);
    IdentifySpecific(item, A);
    assert CnameSearch(item) == Done([]);
    assert [] + [rr] == [rr];
    ConcatSingle(item, record => Identify(record, 1));
    GatheredAsWrittenOnlyWithoutQuestions([Question("example.com", 1)], _ => Items([ExampleItem()]), []);
  }
}
