/**
 The text of a validation nonce, `ts:hash:sig`, and the payload `ts:hash:domain` that is signed.
 The keyed MAC, the data hash and Python's lenient `int()` are parameters; `Ideal` states
 the laws taken for them.
 */
module Nonce {
  import opened Wrappers
  import opened Text

  datatype Crypto = Crypto(
    hash: string -> string,
    mac: string -> string,
    parseInt: string -> Option<int>)
  {
    /** Injective hex digests, and an `int()` of which only one thing is known: it inverts printing. */
    ghost predicate Ideal() {
      && (forall d :: ':' !in hash(d))
      && (forall p :: ':' !in mac(p))
      && (forall d, e :: hash(d) == hash(e) ==> d == e)
      && (forall p, q :: mac(p) == mac(q) ==> p == q)
      && (forall n: int :: parseInt(PrintInt(n)) == Some(n))
    }

    function Payload(tick: int, dataHash: string, domain: string): string {
      PrintInt(tick) + ":" + (dataHash + ":" + domain)
    }

    function Sign(tick: int, domain: string, data: string): string {
      mac(Payload(tick, hash(data), domain))
    }

    function Print(tick: int, domain: string, data: string): string {
      PrintInt(tick) + ":" + (hash(data) + ":" + Sign(tick, domain, data))
    }
  }

  /** The three fields `_verify_nonce` reads out of a submitted string, if it has the right shape. */
  datatype Fields = Fields(tick: int, dataHash: string, signature: string)

  function Parse(c: Crypto, nonce: string): (r: Option<Fields>)
    ensures r.Some? ==> Split(nonce, ':') == [Split(nonce, ':')[0], r.value.dataHash, r.value.signature]
  {
    var parts := Split(nonce, ':');
    if |parts| != 3 then None
    else match c.parseInt(parts[0])
      case None => None
      case Some(tick) => Some(Fields(tick, parts[1], parts[2]))
  }

  /** The text of a nonce: tick, data hash and the MAC over `tick:hash:domain`, in this order, between colons. */
  lemma PrintedFields(c: Crypto, tick: int, domain: string, data: string)
    requires c.Ideal()
    ensures var signature := c.mac(PrintInt(tick) + ":" + c.hash(data) + ":" + domain);
            && c.Print(tick, domain, data) == PrintInt(tick) + ":" + c.hash(data) + ":" + signature
            && c.Sign(tick, domain, data) == signature
            && Split(c.Print(tick, domain, data), ':') == [PrintInt(tick), c.hash(data), signature]
  {
    var h, t := c.hash(data), PrintInt(tick);
    assert t + ":" + h + ":" + domain == c.Payload(tick, h, domain);
    var s := c.Sign(tick, domain, data);
    PrintIntHasNoColon(tick);
    SplitHead(t, h + ":" + s, ':');
    SplitHead(h, s, ':');
    SplitFree(s, ':');
    assert c.Print(tick, domain, data) == t + [':'] + (h + ":" + s) == t + ":" + h + ":" + s;
  }

  /** Which strings are read as a nonce at all: three fields, of which the first is an integer. */
  lemma ParsedExactly(c: Crypto, nonce: string)
    ensures Parse(c, nonce).None? <==> |Split(nonce, ':')| != 3 || c.parseInt(Split(nonce, ':')[0]).None?
    ensures Parse(c, nonce).Some? ==>
      var a := Split(nonce, ':')[0];
      && c.parseInt(a) == Some(Parse(c, nonce).value.tick)
      && nonce == a + ":" + Parse(c, nonce).value.dataHash + ":" + Parse(c, nonce).value.signature
  {
    SplitJoins(nonce, ':');
    if Parse(c, nonce).Some? {
      var parts := Split(nonce, ':');
      assert parts == [parts[0]] + [parts[1]] + [parts[2]];
      JoinThree(parts[0], parts[1], parts[2], ':');
      assert ":" == [':'];
    }
  }

  lemma ParseInvertsPrint(c: Crypto, tick: int, domain: string, data: string)
    requires c.Ideal()
    ensures Parse(c, c.Print(tick, domain, data)) ==
            Some(Fields(tick, c.hash(data), c.Sign(tick, domain, data)))
  {
    var h, s := c.hash(data), c.Sign(tick, domain, data);
    PrintIntHasNoColon(tick);
    SplitHead(PrintInt(tick), h + ":" + s, ':');
    SplitHead(h, s, ':');
    SplitFree(s, ':');
    assert c.Print(tick, domain, data) == PrintInt(tick) + [':'] + (h + ":" + s);
    assert Split(c.Print(tick, domain, data), ':') == [PrintInt(tick), h, s];
  }

  /** The signed payload determines tick, hash and domain, even when the domain contains colons. */
  lemma PayloadIsUnambiguous(c: Crypto, t: int, h: string, d: string, t': int, h': string, d': string)
    requires c.Ideal() && ':' !in h && ':' !in h'
    ensures c.Payload(t, h, d) == c.Payload(t', h', d') <==> t == t' && h == h' && d == d'
  {
    if c.Payload(t, h, d) == c.Payload(t', h', d') {
      PrintIntHasNoColon(t);
      PrintIntHasNoColon(t');
      CutIsInjective(PrintInt(t), h + ":" + d, PrintInt(t'), h' + ":" + d', ':');
      assert c.parseInt(PrintInt(t)) == c.parseInt(PrintInt(t'));
      CutIsInjective(h, d, h', d', ':');
    }
  }

  /** A signature names one tick, one domain and one payload. */
  lemma SignIsInjective(c: Crypto, t: int, d: string, x: string, t': int, d': string, x': string)
    requires c.Ideal()
    ensures c.Sign(t, d, x) == c.Sign(t', d', x') <==> t == t' && d == d' && x == x'
  {
    PayloadIsUnambiguous(c, t, c.hash(x), d, t', c.hash(x'), d');
  }

  lemma ParsedHashIsColonFree(c: Crypto, nonce: string)
    requires Parse(c, nonce).Some?
    ensures ':' !in Parse(c, nonce).value.dataHash
  {
    SplitPartsAreFree(nonce, ':');
    assert Split(nonce, ':')[1] in Split(nonce, ':');
  }

  // The laws of `Ideal` can be met: a colon-free injective code serves as hash and as MAC.

  function Guard(s: string): string
  {
    if s == "" then ""
    else (if s[0] == ':' then "/c" else if s[0] == '/' then "/s" else [s[0]]) + Guard(s[1..])
  }

  lemma {:induction false} GuardHasNoColon(s: string)
    ensures ':' !in Guard(s)
  {
    if s != "" {
      GuardHasNoColon(s[1..]);
    }
  }

  lemma {:induction false} GuardIsInjective(s: string, t: string)
    requires Guard(s) == Guard(t)
    ensures s == t
  {
    if s == "" || t == "" {
    } else {
      assert Guard(s)[0] == Guard(t)[0];
      var k := if s[0] == ':' || s[0] == '/' then 2 else 1;
      assert Guard(s)[k..] == Guard(s[1..]);
      assert k == 2 ==> Guard(s)[1] == Guard(t)[1];
      assert Guard(t)[k..] == Guard(t[1..]);
      GuardIsInjective(s[1..], t[1..]);
    }
  }

  lemma IdealCryptoExists() returns (c: Crypto)
    ensures c.Ideal()
  {
    c := Crypto(Guard, Guard, ParseDecimal);
    forall d ensures ':' !in c.hash(d) && ':' !in c.mac(d) {
      GuardHasNoColon(d);
    }
    forall d, e | Guard(d) == Guard(e) ensures d == e {
      GuardIsInjective(d, e);
    }
    forall n: int ensures c.parseInt(PrintInt(n)) == Some(n) {
      ParseDecimalInvertsPrint(n);
    }
  }
}
