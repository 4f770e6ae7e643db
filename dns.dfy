/** The DNS vocabulary the resolver produces: record types with their QTYPE
    codes, typed record payloads and resource records. */
module Dns {
  import opened Json

  /** The record types the resolver knows. Codes are the QTYPE values of
      RFC 1035 section 3.2.2 (A, NS, CNAME, SOA, MX, TXT), RFC 3596 section
      2.1 (AAAA), RFC 2782 (SRV), RFC 3403 section 4.1 (NAPTR) and RFC 8659
      section 4.1 (CAA). */
  datatype RecordType = CNAME | A | AAAA | NS | MX | SOA | TXT | SRV | CAA | NAPTR {

    function Code(): int
    {
      match this
      case A => 1
      case NS => 2
      case CNAME => 5
      case SOA => 6
      case MX => 15
      case TXT => 16
      case AAAA => 28
      case SRV => 33
      case NAPTR => 35
      case CAA => 257
    }

    /** The key of the per-type sub-record in a stored record. */
    function Key(): string
    {
      match this
      case CNAME => "CNAME"
      case A => "A"
      case AAAA => "AAAA"
      case NS => "NS"
      case MX => "MX"
      case SOA => "SOA"
      case TXT => "TXT"
      case SRV => "SRV"
      case CAA => "CAA"
      case NAPTR => "NAPTR"
    }

    /** The types whose sub-record holds a list of values; CNAME and SOA hold
        a single one. */
    predicate IsListValued()
    {
      !CNAME? && !SOA?
    }
  }

  /** The ANY wildcard, QTYPE 255 of RFC 1035 section 3.2.3. */
  const ANY: int := 255

  /** Record payloads. Fields the resolver passes through `int` are integers;
      the others are handed to the DNS library untouched and stay stored
      values (their parsing belongs to that library). NAPTR flags, service
      and regexp are the encoded strings. */
  datatype RData =
    | AData(address: Value)
    | AaaaData(address: Value)
    | CnameData(alias: Value)
    | NsData(host: Value)
    | MxData(exchange: Value, preference: int)
    | SoaData(mname: Value, rname: Value, times: seq<int>)
    | TxtData(text: Value)
    | SrvData(priority: int, weight: int, port: int, target: Value)
    | CaaData(flags: int, tag: Value, value: Value)
    | NaptrData(order: int, preference: int, naptrFlags: string, service: string,
                regexp: string, replacement: Value)

  /** One resource record: owner name, type code, payload and time to live. */
  datatype RR = RR(rname: Value, rtype: int, rdata: RData, ttl: int)

  /** Distinct types have distinct codes, and none is the ANY wildcard. */
  lemma CodeInjective(t: RecordType, u: RecordType)
    ensures t.Code() == u.Code() <==> t == u
    ensures t.Code() != ANY
  {
  }
}
