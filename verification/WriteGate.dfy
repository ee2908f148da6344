/**
 The write gate: validation issues a signed nonce, the governed write checks and burns it.
 Functions give the effect of each operation on the gate's state; the class carries the
 state and its methods are proved to have that effect.
 */
module WriteGates {
  import opened Wrappers
  import opened Nonce
  import opened AutonomyPolicies
  import opened Timeline
  import Cypher

  type Graph = set<Cypher.Triple>

  /** What rdflib and pyshacl answer. `shacl` gives no answer when the validation engine itself fails. */
  datatype Ontology = Ontology(
    domains: set<string>,
    parse: (string, string) -> Option<Graph>,
    shacl: (string, Graph) -> Option<bool>)

  /**
   `forgets` is true in the running system. False gives the reference gate whose burned
   nonces are never dropped; everything else is the same code.
   */
  datatype GateConfig = GateConfig(
    crypto: Crypto,
    ttl: int,
    ontology: Ontology,
    limits: Option<Limits>,
    forgets: bool)

  datatype GateError =
    | QuotaRefused(reason: QuotaError)
    | NonceMalformed | NonceExpired | NonceConsumed | SignatureInvalid | DataMismatch
    | UnknownDomain | RdfMalformed | ShaclEngineFailed | RevalidationFailed

  /** The three monotonic-clock reads of one write: the TTL check, the pruning, the burning. */
  datatype Reads = Reads(check: real, prune: real, burn: real)

  datatype GateCore = GateCore(consumed: map<string, real>, quota: QuotaState)

  function Tick(now: real): int { now.Floor }

  function Prune(consumed: map<string, real>, now: real): map<string, real>
  {
    map s | s in consumed && consumed[s] > now :: consumed[s]
  }

  function Cleanup(cfg: GateConfig, consumed: map<string, real>, now: real): map<string, real>
  {
    if cfg.forgets then Prune(consumed, now) else consumed
  }

  // ----- Stage 2 -----

  function Compliant(o: Ontology, domain: string, data: string, format: string): Result<bool, GateError>
  {
    if domain !in o.domains then Err(UnknownDomain)
    else match o.parse(data, format)
      case None => Err(RdfMalformed)
      case Some(g) => match o.shacl(domain, g)
        case None => Err(ShaclEngineFailed)
        case Some(ok) => Ok(ok)
  }

  /** The nonce is issued only for data that conforms. */
  function Validate(cfg: GateConfig, now: real, domain: string, data: string, format: string)
    : Result<Option<string>, GateError>
  {
    match Compliant(cfg.ontology, domain, data, format)
    case Err(e) => Err(e)
    case Ok(ok) => Ok(if ok then Some(cfg.crypto.Print(Tick(now), domain, data)) else None)
  }

  // ----- Stage 3 -----

  /** The table after the check, and why the nonce is refused, if it is. */
  function VerifyNonce(
    cfg: GateConfig, consumed: map<string, real>, r: Reads, domain: string, data: string, nonce: string)
    : (map<string, real>, Option<GateError>)
  {
    match Parse(cfg.crypto, nonce)
    case None => (consumed, Some(NonceMalformed))
    case Some(f) =>
      if r.check - (f.tick as real) > cfg.ttl as real then (consumed, Some(NonceExpired))
      else
        var table := Cleanup(cfg, consumed, r.prune);
        if f.signature in table then (table, Some(NonceConsumed))
        else if f.signature != cfg.crypto.mac(cfg.crypto.Payload(f.tick, f.dataHash, domain)) then
          (table, Some(SignatureInvalid))
        else if cfg.crypto.hash(data) != f.dataHash then (table, Some(DataMismatch))
        else (table, None)
  }

  function Burn(cfg: GateConfig, consumed: map<string, real>, now: real, nonce: string): map<string, real>
  {
    match Parse(cfg.crypto, nonce)
    case None => consumed
    case Some(f) => consumed[f.signature := now + cfg.ttl as real]
  }

  function TakeQuota(cfg: GateConfig, s: QuotaState, now: real): (QuotaState, Result<(), QuotaError>)
  {
    match cfg.limits
    case None => (s, Ok(()))
    case Some(l) => CheckQuota(l, s, now)
  }

  /** The atomic part of a governed write: quota, nonce check, burn, re-validation. On success, the graph to write. */
  function Authorize(
    cfg: GateConfig, core: GateCore, wall: real, r: Reads,
    domain: string, data: string, nonce: string, format: string)
    : (GateCore, Result<Graph, GateError>)
  {
    var (quota, granted) := TakeQuota(cfg, core.quota, wall);
    if granted.Err? then (GateCore(core.consumed, quota), Err(QuotaRefused(granted.error)))
    else
      var (table, refusal) := VerifyNonce(cfg, core.consumed, r, domain, data, nonce);
      if refusal.Some? then (GateCore(table, quota), Err(refusal.value))
      else
        var core' := GateCore(Burn(cfg, table, r.burn, nonce), quota);
        match Compliant(cfg.ontology, domain, data, format)
        case Err(e) => (core', Err(e))
        case Ok(ok) =>
          if !ok then (core', Err(RevalidationFailed))
          else (core', Ok(cfg.ontology.parse(data, format).value))
  }

  // ----- The gate object -----

  /** A graph is iterated in any order, each triple at least once. */
  ghost predicate InAnyOrder(order: Graph -> seq<Cypher.Triple>)
  {
    forall g: Graph :: Cypher.Elements(order(g)) == g
  }

  datatype WriteOutcome = Refused(error: GateError) | DatabaseFailed | Written(records: nat)

  class WriteGate {
    const cfg: GateConfig
    const upper: char -> string
    const policy: AutonomyPolicy?
    const client: Cypher.Neo4jClient
    var validators: set<string>
    var consumedNonces: map<string, real>

    ghost predicate Valid()
      reads this
    {
      && cfg.forgets
      && (policy == null <==> cfg.limits.None?)
      && (policy != null ==> cfg.limits == Some(policy.limits))
      && validators <= cfg.ontology.domains
    }

    ghost function Core(): GateCore
      reads this, policy
    {
      GateCore(consumedNonces, if policy == null then FRESH else policy.State())
    }

    constructor (cfg: GateConfig, upper: char -> string, policy: AutonomyPolicy?, client: Cypher.Neo4jClient)
      requires cfg.forgets && (policy == null <==> cfg.limits.None?)
      requires policy != null ==> cfg.limits == Some(policy.limits)
      ensures Valid() && Core().consumed == map[]
      ensures this.cfg == cfg && this.policy == policy && this.client == client
    {
      this.cfg := cfg;
      this.upper := upper;
      this.policy := policy;
      this.client := client;
      validators := {};
      consumedNonces := map[];
    }

    method VerifyShaclCompliance(now: real, domain: string, data: string, format: string)
      returns (r: Result<Option<string>, GateError>)
      requires Valid()
      modifies this`validators
      ensures Valid() && r == Validate(cfg, now, domain, data, format)
      ensures validators == old(validators) + if domain in cfg.ontology.domains then {domain} else {}
    {
      if domain !in validators {
        if domain !in cfg.ontology.domains {
          return Err(UnknownDomain);
        }
        validators := validators + {domain};
      }
      var graph := cfg.ontology.parse(data, format);
      if graph.None? {
        return Err(RdfMalformed);
      }
      var conforms := cfg.ontology.shacl(domain, graph.value);
      if conforms.None? {
        return Err(ShaclEngineFailed);
      }
      if !conforms.value {
        return Ok(None);
      }
      r := Ok(Some(cfg.crypto.Print(Tick(now), domain, data)));
    }

    method CleanupExpiredNonces(now: real)
      modifies this`consumedNonces
      ensures consumedNonces == Prune(old(consumedNonces), now)
    {
      var expired := set s | s in consumedNonces && consumedNonces[s] <= now;
      var todo := expired;
      while todo != {}
        invariant todo <= expired
        invariant consumedNonces == old(consumedNonces) - (expired - todo)
        decreases |todo|
      {
        var s :| s in todo;
        consumedNonces := consumedNonces - {s};
        todo := todo - {s};
      }
      assert consumedNonces == Prune(old(consumedNonces), now);
    }

    method CheckNonce(r: Reads, domain: string, data: string, nonce: string) returns (refusal: Option<GateError>)
      requires Valid()
      modifies this`consumedNonces
      ensures Valid() && (consumedNonces, refusal) == VerifyNonce(cfg, old(consumedNonces), r, domain, data, nonce)
    {
      var fields := Parse(cfg.crypto, nonce);
      if fields.None? {
        return Some(NonceMalformed);
      }
      var Fields(tick, dataHash, signature) := fields.value;
      if r.check - (tick as real) > cfg.ttl as real {
        return Some(NonceExpired);
      }
      CleanupExpiredNonces(r.prune);
      if signature in consumedNonces {
        return Some(NonceConsumed);
      }
      if signature != cfg.crypto.mac(cfg.crypto.Payload(tick, dataHash, domain)) {
        return Some(SignatureInvalid);
      }
      if cfg.crypto.hash(data) != dataHash {
        return Some(DataMismatch);
      }
      refusal := None;
    }

    method ConsumeNonce(now: real, nonce: string)
      modifies this`consumedNonces
      ensures consumedNonces == Burn(cfg, old(consumedNonces), now, nonce)
    {
      var fields := Parse(cfg.crypto, nonce);
      if fields.Some? {
        consumedNonces := consumedNonces[fields.value.signature := now + cfg.ttl as real];
      }
    }

    /** `order` is the order in which the parsed graph happens to be iterated. */
    method ExecuteGovernedWrite(
      wall: real, r: Reads, domain: string, data: string, nonce: string, format: string,
      order: Graph -> seq<Cypher.Triple>, db: Cypher.Database)
      returns (out: WriteOutcome)
      requires Valid()
      requires InAnyOrder(order)
      modifies this, policy, client
      ensures Valid()
      ensures var (core, auth) := Authorize(cfg, old(Core()), wall, r, domain, data, nonce, format);
              && Core() == core
              && match auth
                 case Err(e) => out == Refused(e) && client.store == old(client.store)
                 case Ok(graph) =>
                   if Cypher.GoesThrough(db, |order(graph)|) then
                     && out.Written?
                     && client.store == old(client.store).Plus(Cypher.Image(upper, graph))
                     && client.store.Size() == old(client.store).Size() + out.records
                   else out == DatabaseFailed && client.store == old(client.store)
    {
      if policy != null {
        var granted := policy.CheckWriteQuota(wall);
        if granted.Err? {
          return Refused(QuotaRefused(granted.error));
        }
      }
      var refusal := CheckNonce(r, domain, data, nonce);
      if refusal.Some? {
        return Refused(refusal.value);
      }
      ConsumeNonce(r.burn, nonce);
      var report := VerifyShaclCompliance(r.burn, domain, data, format);
      if report.Err? {
        return Refused(report.error);
      }
      if report.value.None? {
        return Refused(RevalidationFailed);
      }
      var triples := order(cfg.ontology.parse(data, format).value);
      var statements := Cypher.RdfToCypherStatements(upper, triples);
      Cypher.BatchAddsImage(upper, client.store, triples, db);
      var written := client.ExecuteWriteBatch(statements, db);
      out := if written.None? then DatabaseFailed else Written(written.value);
    }
  }

  // ----- One nonce, one check -----

  /** A printed nonce is accepted for its own domain and data, within its TTL, unless burned; and for nothing else. */
  lemma PrintedNonceAcceptedIff(
    cfg: GateConfig, consumed: map<string, real>, r: Reads, tick: int,
    domain: string, data: string, domain': string, data': string)
    requires cfg.crypto.Ideal()
    ensures VerifyNonce(cfg, consumed, r, domain', data', cfg.crypto.Print(tick, domain, data)).1.None?
       <==> && domain' == domain && data' == data
            && r.check - (tick as real) <= cfg.ttl as real
            && cfg.crypto.Sign(tick, domain, data) !in Cleanup(cfg, consumed, r.prune)
  {
    var c := cfg.crypto;
    ParseInvertsPrint(c, tick, domain, data);
    PayloadIsUnambiguous(c, tick, c.hash(data), domain, tick, c.hash(data), domain');
  }

  ghost predicate Ordered(r: Reads, earliest: real, skew: real)
  {
    earliest <= r.check <= r.prune <= r.burn && r.prune <= r.check + skew
  }

  /**
   When forgetting is safe, exactly: a nonce burned by `first` can pass a later check of the
   forgetting gate if and only if it was burned no later than `skew` after its issue tick (and
   within its TTL), where `skew` is the largest delay between the TTL check's clock read and
   the pruning's.
   */
  lemma ReplayIff(
    cfg: GateConfig, consumed: map<string, real>, first: Reads, skew: real,
    tick: int, domain: string, data: string)
    requires cfg.crypto.Ideal() && cfg.forgets && 0 <= cfg.ttl && 0.0 <= skew
    requires Ordered(first, first.check, skew)
    requires VerifyNonce(cfg, consumed, first, domain, data, cfg.crypto.Print(tick, domain, data)).1.None?
    ensures var nonce := cfg.crypto.Print(tick, domain, data);
            var table := Burn(cfg, Cleanup(cfg, consumed, first.prune), first.burn, nonce);
            ((exists second ::
                && Ordered(second, first.burn, skew)
                && VerifyNonce(cfg, table, second, domain, data, nonce).1.None?)
             <==> first.burn <= tick as real + skew && first.burn <= tick as real + cfg.ttl as real)
  {
    var c, ttl := cfg.crypto, cfg.ttl as real;
    var nonce := c.Print(tick, domain, data);
    ParseInvertsPrint(c, tick, domain, data);
    var sig := c.Sign(tick, domain, data);
    var table := Burn(cfg, Cleanup(cfg, consumed, first.prune), first.burn, nonce);
    assert table[sig] == first.burn + ttl;
    forall second | Ordered(second, first.burn, skew)
      ensures VerifyNonce(cfg, table, second, domain, data, nonce).1.None?
         <==> second.check <= tick as real + ttl && first.burn + ttl <= second.prune
    {
      PrintedNonceAcceptedIff(cfg, table, second, tick, domain, data, domain, data);
    }
    if first.burn <= tick as real + skew && first.burn <= tick as real + ttl {
      var check := tick as real + ttl;
      var prune := if first.burn + ttl < check then check else first.burn + ttl;
      assert Ordered(Reads(check, prune, prune), first.burn, skew);
    }
  }

  // ----- Which answer a caller gets -----

  /** Stage 2 by the ontology's own answers: unknown domains first, then malformed data, then a failing engine. */
  lemma ValidationAnswers(cfg: GateConfig, now: real, domain: string, data: string, format: string)
    ensures var o, r := cfg.ontology, Validate(cfg, now, domain, data, format);
            && (r == Err(UnknownDomain) <==> domain !in o.domains)
            && (r == Err(RdfMalformed) <==> domain in o.domains && o.parse(data, format).None?)
            && (r == Err(ShaclEngineFailed) <==>
                  domain in o.domains && exists g :: o.parse(data, format) == Some(g) && o.shacl(domain, g).None?)
            && (r == Ok(None) <==>
                  domain in o.domains
                  && exists g :: o.parse(data, format) == Some(g) && o.shacl(domain, g) == Some(false))
            && (r == Ok(Some(cfg.crypto.Print(now.Floor, domain, data))) <==>
                  domain in o.domains
                  && exists g :: o.parse(data, format) == Some(g) && o.shacl(domain, g) == Some(true))
            && (r.Ok? && r.value.Some? ==> r.value.value == cfg.crypto.Print(now.Floor, domain, data))
            && (r.Err? ==> r.error in {UnknownDomain, RdfMalformed, ShaclEngineFailed})
  {
    hide Crypto.Print;
  }

  /** Why a string is refused as a nonce: shape, then age, then reuse, then signature, then data. */
  lemma NonceRefusals(
    cfg: GateConfig, consumed: map<string, real>, r: Reads, domain: string, data: string, nonce: string)
    ensures var refusal := VerifyNonce(cfg, consumed, r, domain, data, nonce).1;
            var f := Parse(cfg.crypto, nonce);
            && (refusal == Some(NonceMalformed) <==> f.None?)
            && (f.Some? ==>
                  var late := r.check > f.value.tick as real + cfg.ttl as real;
                  var used := f.value.signature in Cleanup(cfg, consumed, r.prune);
                  var payload := cfg.crypto.Payload(f.value.tick, f.value.dataHash, domain);
                  var signed := f.value.signature == cfg.crypto.mac(payload);
                  var same := f.value.dataHash == cfg.crypto.hash(data);
                  && (refusal == Some(NonceExpired) <==> late)
                  && (refusal == Some(NonceConsumed) <==> !late && used)
                  && (refusal == Some(SignatureInvalid) <==> !late && !used && !signed)
                  && (refusal == Some(DataMismatch) <==> !late && !used && signed && !same)
                  && (refusal == None <==> !late && !used && signed && same))
  {
    hide Parse, Cleanup, Crypto.Payload;
  }

  /** For a nonce the gate printed: late, used, presented for another domain, or for other data. */
  lemma PrintedNonceRefusals(
    cfg: GateConfig, consumed: map<string, real>, r: Reads, tick: int,
    domain: string, data: string, domain': string, data': string)
    requires cfg.crypto.Ideal()
    ensures var refusal := VerifyNonce(cfg, consumed, r, domain', data', cfg.crypto.Print(tick, domain, data)).1;
            var late := r.check > tick as real + cfg.ttl as real;
            var used := cfg.crypto.Sign(tick, domain, data) in Cleanup(cfg, consumed, r.prune);
            && (refusal == Some(NonceExpired) <==> late)
            && (refusal == Some(NonceConsumed) <==> !late && used)
            && (refusal == Some(SignatureInvalid) <==> !late && !used && domain' != domain)
            && (refusal == Some(DataMismatch) <==> !late && !used && domain' == domain && data' != data)
            && refusal != Some(NonceMalformed)
  {
    var c := cfg.crypto;
    ParseInvertsPrint(c, tick, domain, data);
    PayloadIsUnambiguous(c, tick, c.hash(data), domain, tick, c.hash(data), domain');
    NonceRefusals(cfg, consumed, r, domain', data', c.Print(tick, domain, data));
    hide Parse, Cleanup, Crypto.Print, Crypto.Payload, VerifyNonce;
    assert c.hash(data) == c.hash(data') <==> data == data';
  }

  lemma OnlyQuotaRefusesByQuota(
    cfg: GateConfig, consumed: map<string, real>, r: Reads, domain: string, data: string, nonce: string, format: string)
    ensures var refusal, compliant := VerifyNonce(cfg, consumed, r, domain, data, nonce).1,
                                      Compliant(cfg.ontology, domain, data, format);
            && !(refusal.Some? && refusal.value.QuotaRefused?)
            && !(compliant.Err? && compliant.error.QuotaRefused?)
  {
    hide Parse, Cleanup;
  }

  /** A write over the quota is refused as such, before its nonce is looked at: the nonce stays usable. */
  lemma OverQuotaRefusals(
    cfg: GateConfig, core: GateCore, granted: seq<real>, last: real, wall: real, r: Reads,
    domain: string, data: string, nonce: string, format: string)
    requires cfg.limits.Some? && Tracks(core.quota, granted, last) && last <= wall
    ensures var l, (core', auth) := cfg.limits.value, Authorize(cfg, core, wall, r, domain, data, nonce, format);
            && (auth == Err(QuotaRefused(SessionExhausted)) <==> l.perSession <= |granted|)
            && (auth == Err(QuotaRefused(RateExceeded)) <==>
                  |granted| < l.perSession && l.perMinute <= CountIn(granted, wall - 60.0, wall))
            && (auth.Err? && auth.error.QuotaRefused? ==> core'.consumed == core.consumed)
            && (!(auth.Err? && auth.error.QuotaRefused?) ==> Tracks(core'.quota, granted + [wall], wall))
  {
    hide Parse, VerifyNonce, Burn, Compliant, CheckQuota, CountIn, Tracks;
    OnlyQuotaRefusesByQuota(cfg, core.consumed, r, domain, data, nonce, format);
    QuotaRefusals(cfg.limits.value, core.quota, granted, last, wall);
    QuotaRefinesHistory(cfg.limits.value, core.quota, granted, last, wall);
  }

  /** Without a policy no write is refused by quota. */
  lemma WithoutPolicyNoQuota(
    cfg: GateConfig, core: GateCore, wall: real, r: Reads, domain: string, data: string, nonce: string, format: string)
    requires cfg.limits.None?
    ensures var (core', auth) := Authorize(cfg, core, wall, r, domain, data, nonce, format);
            core'.quota == core.quota && !(auth.Err? && auth.error.QuotaRefused?)
  {
    hide Parse, VerifyNonce, Burn, Compliant;
    OnlyQuotaRefusesByQuota(cfg, core.consumed, r, domain, data, nonce, format);
  }

  /** The other answers of a write the quota grants: the nonce's refusal as it is, or after a burn whatever the ontology
      now says of the data under the format given. */
  lemma AuthorizationAnswers(
    cfg: GateConfig, core: GateCore, wall: real, r: Reads, domain: string, data: string, nonce: string, format: string)
    requires TakeQuota(cfg, core.quota, wall).1.Ok?
    ensures var o, (core', auth) := cfg.ontology, Authorize(cfg, core, wall, r, domain, data, nonce, format);
            var (table, refusal) := VerifyNonce(cfg, core.consumed, r, domain, data, nonce);
            && (refusal.Some? ==> auth == Err(refusal.value) && core'.consumed == table)
            && (refusal.None? ==>
                  && core'.consumed == table[Parse(cfg.crypto, nonce).value.signature := r.burn + cfg.ttl as real]
                  && (auth == Err(UnknownDomain) <==> domain !in o.domains)
                  && (auth == Err(RdfMalformed) <==> domain in o.domains && o.parse(data, format).None?)
                  && (auth == Err(ShaclEngineFailed) <==>
                        domain in o.domains && exists g :: o.parse(data, format) == Some(g) && o.shacl(domain, g).None?)
                  && (auth == Err(RevalidationFailed) <==>
                        domain in o.domains && exists g :: o.parse(data, format) == Some(g)
                                                           && o.shacl(domain, g) == Some(false))
                  && forall g :: auth == Ok(g) <==>
                       domain in o.domains && o.parse(data, format) == Some(g) && o.shacl(domain, g) == Some(true))
  {
    hide Cleanup, CheckQuota, Crypto.Payload;
  }
}
