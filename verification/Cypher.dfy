/**
 The RDF-to-Cypher translation: escaping of string values, the MERGE text of one triple,
 and the transactional batch that runs the texts against the graph database.
 */
module Cypher {
  import opened Wrappers
  import opened Text

  /** An RDF term with the string Python's `str` gives for it (for a literal, of its value). */
  datatype Term = Iri(iri: string) | Literal(value: string) | Anonymous(node: string)

  datatype Triple = Triple(subj: Term, pred: Term, obj: Term)

  function TermText(t: Term): string
  {
    match t
    case Iri(iri) => iri
    case Literal(value) => value
    case Anonymous(node) => node
  }

  // ----- Escaping -----

  /** `s.replace(c, sub)` for a one-character pattern. */
  function Replace(s: string, c: char, sub: string): string
  {
    if s == "" then "" else (if s[0] == c then sub else [s[0]]) + Replace(s[1..], c, sub)
  }

  /** The five successive whole-string replacements. */
  function Sanitize(v: string): string
  {
    Replace(Replace(Replace(Replace(Replace(v, '\\', "\\\\"), '\'', "\\'"), '\0', ""), '\n', " "), '\r', "")
  }

  function Escape(c: char): string
  {
    if c == '\\' then "\\\\" else if c == '\'' then "\\'"
    else if c == '\0' || c == '\r' then "" else if c == '\n' then " " else [c]
  }

  function EscapeAll(s: string): string
  {
    if s == "" then "" else Escape(s[0]) + EscapeAll(s[1..])
  }

  /** What the written value keeps of the original: NUL and CR dropped, LF turned into a space. */
  function Clean(s: string): string
  {
    if s == "" then ""
    else (if s[0] == '\0' || s[0] == '\r' then "" else if s[0] == '\n' then " " else [s[0]]) + Clean(s[1..])
  }

  lemma {:induction false} ReplaceConcat(a: string, b: string, c: char, sub: string)
    ensures Replace(a + b, c, sub) == Replace(a, c, sub) + Replace(b, c, sub)
  {
    if a == "" {
      assert a + b == b;
    } else {
      assert (a + b)[1..] == a[1..] + b;
      ReplaceConcat(a[1..], b, c, sub);
    }
  }

  lemma ReplaceOne(x: char, c: char, sub: string)
    ensures Replace([x], c, sub) == if x == c then sub else [x]
  {
    assert [x][1..] == "";
  }

  lemma SanitizeConcat(a: string, b: string)
    ensures Sanitize(a + b) == Sanitize(a) + Sanitize(b)
  {
    var a1, b1 := Replace(a, '\\', "\\\\"), Replace(b, '\\', "\\\\");
    var a2, b2 := Replace(a1, '\'', "\\'"), Replace(b1, '\'', "\\'");
    var a3, b3 := Replace(a2, '\0', ""), Replace(b2, '\0', "");
    ReplaceConcat(a, b, '\\', "\\\\");
    ReplaceConcat(a1, b1, '\'', "\\'");
    ReplaceConcat(a2, b2, '\0', "");
    ReplaceConcat(a3, b3, '\n', " ");
    ReplaceConcat(Replace(a3, '\n', " "), Replace(b3, '\n', " "), '\r', "");
  }

  /** A backslash pair passes untouched through the replacements that follow the one producing it. */
  lemma SanitizePair(x: char)
    requires x == '\\' || x == '\''
    ensures x == '\\' ==> Replace(['\\', x], '\'', "\\'") == ['\\', x]
    ensures Replace(['\\', x], '\0', "") == Replace(['\\', x], '\n', " ") == Replace(['\\', x], '\r', "") == ['\\', x]
  {
    assert ['\\', x][1..] == [x];
    ReplaceOne(x, '\'', "\\'");
    ReplaceOne(x, '\0', "");
    ReplaceOne(x, '\n', " ");
    ReplaceOne(x, '\r', "");
  }

  lemma SanitizeOne(x: char)
    ensures Sanitize([x]) == Escape(x)
  {
    ReplaceOne(x, '\\', "\\\\");
    if x == '\\' {
      SanitizePair('\\');
    } else {
      ReplaceOne(x, '\'', "\\'");
      if x == '\'' {
        SanitizePair('\'');
      } else {
        ReplaceOne(x, '\0', "");
        ReplaceOne(x, '\n', " ");
        ReplaceOne(x, '\r', "");
        ReplaceOne(' ', '\r', "");
      }
    }
  }

  /** The pipeline of five passes is one pass with a character map, although the passes do not commute. */
  lemma {:induction false} SanitizeIsOnePass(s: string)
    ensures Sanitize(s) == EscapeAll(s)
  {
    if s != "" {
      assert s == [s[0]] + s[1..];
      SanitizeConcat([s[0]], s[1..]);
      SanitizeOne(s[0]);
      SanitizeIsOnePass(s[1..]);
    }
  }

  // ----- Reading a Cypher string literal -----

  function Unescape(c: char): Option<char>
  {
    match c
    case '\\' => Some('\\')
    case '\'' => Some('\'')
    case '"' => Some('"')
    case 'n' => Some('\n')
    case 'r' => Some('\r')
    case 't' => Some('\t')
    case 'b' => Some('\U{8}')
    case 'f' => Some('\U{c}')
    case _ => None
  }

  /** Reads a single-quoted literal from just inside its opening quote: its value and the text after it. */
  function ReadLiteral(t: string): Option<(string, string)>
  {
    if t == "" then None
    else if t[0] == '\'' then Some(("", t[1..]))
    else
      var step := if t[0] == '\\' then (if |t| > 1 then Unescape(t[1]) else None) else Some(t[0]);
      var width := if t[0] == '\\' then 2 else 1;
      if step.None? then None
      else match ReadLiteral(t[width..])
        case None => None
        case Some((v, rest)) => Some(([step.value] + v, rest))
  }

  /** Reading on from the first escaped character. */
  lemma EscapeReads(v: string, tail: string, rest: string)
    requires v != "" && ReadLiteral(tail) == Some((Clean(v[1..]), rest))
    ensures ReadLiteral(Escape(v[0]) + tail) == Some((Clean(v), rest))
  {
    var t := Escape(v[0]) + tail;
    if Escape(v[0]) == "" {
      assert t == tail;
      assert Clean(v) == Clean(v[1..]);
    } else {
      assert t[|Escape(v[0])|..] == tail;
    }
  }

  lemma EscapeAllCons(v: string, end: string)
    requires v != ""
    ensures EscapeAll(v) + end == Escape(v[0]) + (EscapeAll(v[1..]) + end)
  {
    hide Escape;
  }

  lemma {:induction false} EscapesReadBack(v: string, rest: string)
    ensures ReadLiteral(EscapeAll(v) + ("'" + rest)) == Some((Clean(v), rest))
  {
    var end := "'" + rest;
    if v == "" {
      assert EscapeAll(v) + end == end && end[1..] == rest;
    } else {
      EscapesReadBack(v[1..], rest);
      hide *;
      EscapeAllCons(v, end);
      EscapeReads(v, EscapeAll(v[1..]) + end, rest);
    }
  }

  /** The reader, started inside the quotes, stops exactly at the closing quote the translation wrote,
      whatever value was escaped and whatever text follows. */
  lemma EscapedLiteralReadsBack(v: string, rest: string)
    ensures ReadLiteral(Sanitize(v) + "'" + rest) == Some((Clean(v), rest))
  {
    SanitizeIsOnePass(v);
    EscapesReadBack(v, rest);
    hide ReadLiteral, EscapeAll, Clean, Sanitize;
    assert EscapeAll(v) + "'" + rest == EscapeAll(v) + ("'" + rest);
  }

  lemma {:induction false} EscapeOfClean(v: string)
    ensures EscapeAll(Clean(v)) == EscapeAll(v)
  {
    if v != "" {
      EscapeOfClean(v[1..]);
      var head := if v[0] == '\0' || v[0] == '\r' then "" else if v[0] == '\n' then " " else [v[0]];
      assert Clean(v) == head + Clean(v[1..]);
      if head == "" {
        assert Clean(v) == Clean(v[1..]);
      } else {
        assert Clean(v)[1..] == Clean(v[1..]);
      }
    }
  }

  /** The escapes as they are written, one character at a time. */
  lemma EscapesWritten(v: string, w: string, c: char)
    ensures Sanitize(v + w) == Sanitize(v) + Sanitize(w)
    ensures Sanitize("'") == "\\'" && Sanitize("\\") == "\\\\"
    ensures Sanitize("\0") == "" && Sanitize("\r") == "" && Sanitize("\n") == " "
    ensures c !in {'\'', '\\', '\0', '\r', '\n'} ==> Sanitize([c]) == [c]
  {
    SanitizeConcat(v, w);
    SanitizeOne('\'');
    SanitizeOne('\\');
    SanitizeOne('\0');
    SanitizeOne('\r');
    SanitizeOne('\n');
    SanitizeOne(c);
    hide Sanitize;
  }

  /** What a value keeps: everything in place, NUL and CR apart, with LF turned into a space. */
  lemma {:induction false} CleanKeeps(v: string)
    ensures forall c :: c in Clean(v) ==> c !in {'\0', '\r', '\n'}
    ensures '\0' !in v && '\r' !in v ==>
      |Clean(v)| == |v| && forall i :: 0 <= i < |v| ==> Clean(v)[i] == if v[i] == '\n' then ' ' else v[i]
  {
    if v != "" {
      CleanKeeps(v[1..]);
      assert v == [v[0]] + v[1..];
    }
  }

  lemma {:induction false} CleanConcat(v: string, w: string)
    ensures Clean(v + w) == Clean(v) + Clean(w)
  {
    if v == "" {
      assert v + w == w;
    } else {
      assert (v + w)[1..] == v[1..] + w;
      CleanConcat(v[1..], w);
      var head := if v[0] == '\0' || v[0] == '\r' then "" else if v[0] == '\n' then " " else [v[0]];
      assert head + (Clean(v[1..]) + Clean(w)) == head + Clean(v[1..]) + Clean(w);
    }
  }

  lemma DroppedHead(c: char, w: string)
    requires c == '\0' || c == '\r'
    ensures Clean([c] + w) == Clean(w)
  {
    assert ([c] + w)[1..] == w;
    assert Clean([c] + w) == "" + Clean(w);
  }

  lemma CleanDrops(v: string, w: string, c: char)
    requires c == '\0' || c == '\r'
    ensures Clean(v + w) == Clean(v) + Clean(w) && Clean(v + [c] + w) == Clean(v + w)
  {
    CleanConcat(v, w);
    CleanConcat(v, [c] + w);
    DroppedHead(c, w);
    hide Clean;
    assert v + ([c] + w) == v + [c] + w;
  }

  /** Two values share a node exactly when they differ only in dropped or flattened control characters. */
  lemma SameEscapeIffSameClean(v: string, w: string)
    ensures Sanitize(v) == Sanitize(w) <==> Clean(v) == Clean(w)
  {
    EscapedLiteralReadsBack(v, "");
    EscapedLiteralReadsBack(w, "");
    EscapeOfClean(v);
    EscapeOfClean(w);
    SanitizeIsOnePass(v);
    SanitizeIsOnePass(w);
  }

  // ----- Relationship labels -----

  function LastPart(s: string, c: char): string
  {
    var parts := Split(s, c);
    parts[|parts| - 1]
  }

  /** The characters the case-insensitive pattern `[A-Z0-9_]` matches: the ASCII ones, and the four
      letters Python folds onto I, S and K. */
  predicate KeepsInLabel(c: char)
  {
    || 'A' <= c <= 'Z' || 'a' <= c <= 'z' || '0' <= c <= '9' || c == '_'
    || c == '\U{130}' || c == '\U{131}' || c == '\U{17f}' || c == '\U{212a}'
  }

  function UpperAll(upper: char -> string, s: string): string
  {
    if s == "" then "" else upper(s[0]) + UpperAll(upper, s[1..])
  }

  function SanitizeLabel(upper: char -> string, name: string): (r: string)
    ensures forall c :: c in r ==> KeepsInLabel(c)
  {
    var s := UpperAll(upper, Replace(name, '-', "_"));
    seq(|s|, i requires 0 <= i < |s| => if KeepsInLabel(s[i]) then s[i] else '_')
  }

  lemma {:induction false} SeparatorSplits(s: string, c: char)
    requires c in s
    ensures |Split(s, c)| > 1
  {
    if s[0] != c {
      SeparatorSplits(s[1..], c);
    }
  }

  /** The last part is what follows the last separator, or everything if there is none. */
  lemma {:induction false} LastPartCuts(s: string, c: char)
    ensures c !in LastPart(s, c) && |LastPart(s, c)| <= |s| && s[|s| - |LastPart(s, c)|..] == LastPart(s, c)
    ensures if c in s then |LastPart(s, c)| < |s| && s[|s| - |LastPart(s, c)| - 1] == c else LastPart(s, c) == s
  {
    if s != "" {
      LastPartCuts(s[1..], c);
      assert s == [s[0]] + s[1..];
      var rest := Split(s[1..], c);
      if c !in s {
        SplitFree(s, c);
      } else if c !in s[1..] {
        SplitFree(s[1..], c);
        assert LastPart(s, c) == s[1..];
      } else {
        assert |rest| > 1 by { SeparatorSplits(s[1..], c); }
        assert LastPart(s, c) == LastPart(s[1..], c);
      }
    }
  }

  lemma LabelCons(upper: char -> string, u: char -> char, name: string)
    requires (forall c :: upper(c) == [u(c)]) && u('_') == '_' && name != ""
    ensures SanitizeLabel(upper, name) ==
      [if name[0] != '-' && KeepsInLabel(u(name[0])) then u(name[0]) else '_'] + SanitizeLabel(upper, name[1..])
  {
    assert Replace(name, '-', "_") == [if name[0] == '-' then '_' else name[0]] + Replace(name[1..], '-', "_");
    var head := if name[0] == '-' then '_' else name[0];
    assert ([head] + Replace(name[1..], '-', "_"))[1..] == Replace(name[1..], '-', "_");
  }

  /** Position by position: letters go to upper case, and whatever is not kept becomes an underscore, hyphens too. */
  lemma {:induction false} LabelPointwise(upper: char -> string, u: char -> char, name: string)
    requires (forall c :: upper(c) == [u(c)]) && u('_') == '_'
    ensures |SanitizeLabel(upper, name)| == |name|
    ensures forall i :: 0 <= i < |name| ==>
      SanitizeLabel(upper, name)[i] == if name[i] != '-' && KeepsInLabel(u(name[i])) then u(name[i]) else '_'
  {
    if name != "" {
      LabelPointwise(upper, u, name[1..]);
      LabelCons(upper, u, name);
      hide SanitizeLabel, KeepsInLabel;
      assert forall i :: 0 < i < |name| ==> name[i] == name[1..][i - 1];
    }
  }

  function Label(upper: char -> string, pred: Term): string
  {
    var p := TermText(pred);
    SanitizeLabel(upper, if '#' in p then LastPart(p, '#') else LastPart(p, '/'))
  }

  lemma {:induction false} UpperConcat(upper: char -> string, a: string, b: string)
    ensures UpperAll(upper, a + b) == UpperAll(upper, a) + UpperAll(upper, b)
  {
    if a == "" {
      assert a + b == b;
    } else {
      assert (a + b)[1..] == a[1..] + b;
      UpperConcat(upper, a[1..], b);
      assert upper(a[0]) + (UpperAll(upper, a[1..]) + UpperAll(upper, b)) == UpperAll(upper, a) + UpperAll(upper, b);
    }
  }

  /** Labels are made character by character, also where upper-casing gives several. */
  lemma LabelConcat(upper: char -> string, a: string, b: string)
    ensures SanitizeLabel(upper, a + b) == SanitizeLabel(upper, a) + SanitizeLabel(upper, b)
  {
    ReplaceConcat(a, b, '-', "_");
    UpperConcat(upper, Replace(a, '-', "_"), Replace(b, '-', "_"));
    hide Replace, UpperAll;
  }

  /** Of the ASCII characters a label keeps the letters, the digits and the underscore. */
  lemma KeptInLabels(c: char)
    requires c < 128 as char
    ensures KeepsInLabel(c) <==> 'A' <= c <= 'Z' || 'a' <= c <= 'z' || '0' <= c <= '9' || c == '_'
  {
  }

  lemma LastPartAfter(head: string, c: char, tail: string)
    requires c !in tail
    ensures LastPart(head + [c] + tail, c) == tail
  {
    var s := head + [c] + tail;
    LastPartCuts(s, c);
    var k := |s| - |LastPart(s, c)|;
    assert s[|head|] == c && s[|head| + 1..] == tail;
    assert s[k..] == LastPart(s, c) && s[k - 1] == c;
    assert forall i :: |head| < i < |s| ==> s[i] == tail[i - |head| - 1] && s[i] != c;
    assert forall i :: k <= i < |s| ==> s[i] == LastPart(s, c)[i - k] && s[i] != c;
    assert k == |head| + 1;
  }

  /** A predicate's label is made of what follows its last `#`; without one, of what follows its last `/`;
      without either, of the whole. */
  lemma LabelOfPredicate(upper: char -> string, ns: string, name: string)
    ensures '#' !in name ==> Label(upper, Iri(ns + "#" + name)) == SanitizeLabel(upper, name)
    ensures '#' !in ns + name && '/' !in name ==> Label(upper, Iri(ns + "/" + name)) == SanitizeLabel(upper, name)
    ensures '#' !in name && '/' !in name ==> Label(upper, Iri(name)) == SanitizeLabel(upper, name)
  {
    hide SanitizeLabel, LastPart;
    var hashed, slashed := ns + "#" + name, ns + "/" + name;
    assert "#" == ['#'] && "/" == ['/'];
    if '#' !in name {
      LastPartAfter(ns, '#', name);
      assert hashed[|ns|] == '#';
    }
    if '#' !in ns + name && '/' !in name {
      LastPartAfter(ns, '/', name);
      assert forall i :: 0 <= i < |ns| ==> ns[i] == (ns + name)[i];
      assert forall i :: 0 <= i < |name| ==> name[i] == (ns + name)[|ns| + i];
    }
    if '/' !in name {
      LastPartCuts(name, '/');
    }
  }

  // ----- The text of one triple, and the reader of such texts -----

  const HEAD := "MERGE (a:`Resource` {uri: '"
  const MIDDLE := "}) MERGE (b:`Resource` {uri: '"
  const ARROW := "}) MERGE (a)-[:`"
  const TAIL := "]->(b)"

  function Statement(upper: char -> string, t: Triple): string
  {
    HEAD + (Sanitize(TermText(t.subj)) + "'" +
    (MIDDLE + (Sanitize(TermText(t.obj)) + "'" +
    (ARROW + (Label(upper, t.pred) + "`" + TAIL)))))
  }

  datatype Edge = Edge(from: string, relation: string, to: string)

  function After(prefix: string, t: string): Option<string>
  {
    if prefix <= t then Some(t[|prefix|..]) else None
  }

  function ReadLabel(t: string): Option<(string, string)>
  {
    if t == "" then None
    else if t[0] == '`' then Some(("", t[1..]))
    else match ReadLabel(t[1..])
      case None => None
      case Some((l, rest)) => Some(([t[0]] + l, rest))
  }

  /** Reads a MERGE text of the translation's shape: two literals, a quoted label, and nothing after. */
  function ReadStatement(t: string): Option<Edge>
  {
    match After(HEAD, t) case None => None case Some(t1) =>
    match ReadLiteral(t1) case None => None case Some((from, t2)) =>
    match After(MIDDLE, t2) case None => None case Some(t3) =>
    match ReadLiteral(t3) case None => None case Some((to, t4)) =>
    match After(ARROW, t4) case None => None case Some(t5) =>
    match ReadLabel(t5) case None => None case Some((relation, t6)) =>
    if t6 == TAIL then Some(Edge(from, relation, to)) else None
  }

  function EdgeOf(upper: char -> string, t: Triple): Edge
  {
    Edge(Clean(TermText(t.subj)), Label(upper, t.pred), Clean(TermText(t.obj)))
  }

  lemma Regrouped(
    h: string, s: string, q: string, m: string, o: string, r: string, l: string, e: string,
    quote: string, second: string, third: string)
    requires q + m == quote + second && q + r == quote + third
    ensures h + (s + q + (m + (o + q + (r + (l + e)))))
         == h + s + quote + second + o + quote + third + l + e
  {
    assert h + (s + q + (m + (o + q + (r + (l + e))))) == h + s + (q + m) + o + (q + r) + l + e;
    assert h + s + (quote + second) + o + (quote + third) + l + e == h + s + quote + second + o + quote + third + l + e;
  }

  /** The statement of a triple, written out with its terms' own strings. */
  lemma StatementWritten(upper: char -> string, t: Triple, subj: string, obj: string)
    requires t.subj in {Iri(subj), Literal(subj), Anonymous(subj)} && t.obj in {Iri(obj), Literal(obj), Anonymous(obj)}
    ensures Statement(upper, t) ==
      "MERGE (a:`Resource` {uri: '" + Sanitize(subj) + "'}) " + "MERGE (b:`Resource` {uri: '" + Sanitize(obj) + "'}) "
      + "MERGE (a)-[:`" + Label(upper, t.pred) + "`]->(b)"
  {
    hide Sanitize, Label;
    var s, o, l := Sanitize(subj), Sanitize(obj), Label(upper, t.pred);
    assert Statement(upper, t) == HEAD + (s + "'" + (MIDDLE + (o + "'" + (ARROW + (l + "`" + TAIL)))));
    hide Statement;
    assert l + "`" + TAIL == l + "`]->(b)";
    Regrouped(HEAD, s, "'", MIDDLE, o, ARROW, l, "`]->(b)", "'}) ", "MERGE (b:`Resource` {uri: '", "MERGE (a)-[:`");
  }

  /** Its edge goes from the subject's string to the object's, by the predicate's label. */
  lemma EdgeOfTerms(upper: char -> string, t: Triple, subj: string, obj: string)
    requires t.subj in {Iri(subj), Literal(subj), Anonymous(subj)} && t.obj in {Iri(obj), Literal(obj), Anonymous(obj)}
    ensures EdgeOf(upper, t) == Edge(Clean(subj), Label(upper, t.pred), Clean(obj))
  {
    hide Label, Clean;
  }

  lemma AfterPrefix(prefix: string, rest: string)
    ensures After(prefix, prefix + rest) == Some(rest)
  {
    assert (prefix + rest)[|prefix|..] == rest;
    assert (prefix + rest)[..|prefix|] == prefix;
  }

  lemma {:induction false} LabelReadsBack(l: string, rest: string)
    requires '`' !in l
    ensures ReadLabel(l + "`" + rest) == Some((l, rest))
  {
    var t := l + "`" + rest;
    if l == "" {
      assert t[1..] == rest;
    } else {
      assert t[1..] == l[1..] + "`" + rest;
      LabelReadsBack(l[1..], rest);
      assert [l[0]] + l[1..] == l;
    }
  }

  /** No triple can change the shape of its statement: every text reads back as exactly its own edge. */
  lemma StatementReadsBack(upper: char -> string, t: Triple)
    ensures ReadStatement(Statement(upper, t)) == Some(EdgeOf(upper, t))
  {
    var s, o, l := TermText(t.subj), TermText(t.obj), Label(upper, t.pred);
    var t5 := l + "`" + TAIL;
    var t3 := Sanitize(o) + "'" + (ARROW + t5);
    var t1 := Sanitize(s) + "'" + (MIDDLE + t3);
    AfterPrefix(HEAD, t1);
    EscapedLiteralReadsBack(s, MIDDLE + t3);
    AfterPrefix(MIDDLE, t3);
    EscapedLiteralReadsBack(o, ARROW + t5);
    AfterPrefix(ARROW, t5);
    LabelReadsBack(l, TAIL);
  }

  function Translate(upper: char -> string, triples: seq<Triple>): seq<string>
  {
    seq(|triples|, i requires 0 <= i < |triples| => Statement(upper, triples[i]))
  }

  /** The loop of `_rdf_to_cypher_statements`, over the graph in the order it is iterated. */
  method RdfToCypherStatements(upper: char -> string, graph: seq<Triple>) returns (statements: seq<string>)
    ensures statements == Translate(upper, graph)
  {
    hide Statement;
    statements := [];
    for i := 0 to |graph|
      invariant |statements| == i
      invariant forall j :: 0 <= j < i ==> statements[j] == Statement(upper, graph[j])
    {
      statements := statements + [Statement(upper, graph[i])];
    }
  }

  // ----- The graph store and the write batch -----

  datatype GraphStore = GraphStore(nodes: set<string>, edges: set<Edge>)
  {
    function Size(): nat { |nodes| + |edges| }

    function Plus(other: GraphStore): GraphStore {
      GraphStore(nodes + other.nodes, edges + other.edges)
    }
  }

  function MergeEdge(g: GraphStore, e: Edge): GraphStore
  {
    GraphStore(g.nodes + {e.from, e.to}, g.edges + {e})
  }

  /** `nodes_created + relationships_created` of one MERGE. */
  function Created(g: GraphStore, e: Edge): nat
  {
    (if e.from in g.nodes then 0 else 1) +
    (if e.to in g.nodes || e.to == e.from then 0 else 1) +
    (if e in g.edges then 0 else 1)
  }

  /** Runs one text: a text the reader rejects is a syntax error. */
  function RunText(g: GraphStore, text: string): Option<(GraphStore, nat)>
  {
    match ReadStatement(text)
    case None => None
    case Some(e) => Some((MergeEdge(g, e), Created(g, e)))
  }

  /** Which database calls of one batch go through: each statement, and the final commit. */
  datatype Database = Database(runs: nat -> bool, commits: bool)

  /** A batch of this many statements meets no failing call. */
  predicate GoesThrough(db: Database, statements: nat)
  {
    db.commits && forall i :: 0 <= i < statements ==> db.runs(i)
  }

  /** The statements from `k` on, inside the transaction; `None` when one of them fails. */
  function RunFrom(g: GraphStore, texts: seq<string>, db: Database, k: nat): Option<(GraphStore, nat)>
    requires k <= |texts|
    decreases |texts| - k
  {
    if k == |texts| then Some((g, 0))
    else if Text.Blank(texts[k]) then RunFrom(g, texts, db, k + 1)
    else if !db.runs(k) then None
    else match RunText(g, texts[k])
      case None => None
      case Some((g', n)) =>
        match RunFrom(g', texts, db, k + 1)
        case None => None
        case Some((g'', m)) => Some((g'', n + m))
  }

  /** The whole batch: all statements and the commit, or nothing. */
  function WriteBatch(g: GraphStore, texts: seq<string>, db: Database): (GraphStore, Option<nat>)
  {
    match RunFrom(g, texts, db, 0)
    case None => (g, None)
    case Some((g', n)) => if db.commits then (g', Some(n)) else (g, None)
  }

  /** Blank statements are not sent: a batch of them succeeds with the commit alone and writes nothing. */
  lemma {:induction false} BlanksAreSkipped(g: GraphStore, texts: seq<string>, db: Database, k: nat)
    requires k <= |texts| && forall i :: k <= i < |texts| ==> Text.Blank(texts[i])
    ensures RunFrom(g, texts, db, k) == Some((g, 0))
    ensures k == 0 ==> WriteBatch(g, texts, db) == (g, if db.commits then Some(0) else None)
    decreases |texts| - k
  {
    if k < |texts| {
      BlanksAreSkipped(g, texts, db, k + 1);
    }
  }

  /** The database client: a store only a committed transaction changes. */
  class Neo4jClient {
    var store: GraphStore

    constructor (initial: GraphStore)
      ensures store == initial
    {
      store := initial;
    }

    method ExecuteWriteBatch(statements: seq<string>, db: Database) returns (written: Option<nat>)
      modifies this
      ensures (store, written) == WriteBatch(old(store), statements, db)
    {
      hide RunText, Text.Blank;
      var tx := store;
      var total := 0;
      for k := 0 to |statements|
        invariant store == old(store)
        invariant match RunFrom(tx, statements, db, k)
                  case None => RunFrom(store, statements, db, 0).None?
                  case Some((g, n)) => RunFrom(store, statements, db, 0) == Some((g, total + n))
      {
        if !Text.Blank(statements[k]) {
          if !db.runs(k) {
            return None;
          }
          var r := RunText(tx, statements[k]);
          if r.None? {
            return None;
          }
          tx, total := r.value.0, total + r.value.1;
        }
      }
      if !db.commits {
        return None;
      }
      store := tx;
      written := Some(total);
    }
  }

  function Elements<T(==)>(s: seq<T>): set<T> { set x | x in s }

  ghost function EdgeSet(upper: char -> string, triples: set<Triple>): set<Edge>
  {
    set t | t in triples :: EdgeOf(upper, t)
  }

  /** A set of edges with exactly the nodes they connect. */
  ghost function Spanned(edges: set<Edge>): GraphStore
  {
    GraphStore((set e | e in edges :: e.from) + (set e | e in edges :: e.to), edges)
  }

  /** The nodes and edges a set of triples stands for. */
  ghost function Image(upper: char -> string, triples: set<Triple>): GraphStore
  {
    Spanned(EdgeSet(upper, triples))
  }

  lemma SpannedUnion(a: set<Edge>, b: set<Edge>)
    ensures Spanned(a + b) == Spanned(a).Plus(Spanned(b))
  {
    var s, t := Spanned(a + b), Spanned(a).Plus(Spanned(b));
    assert s.nodes == t.nodes;
  }

  lemma ImageOfUnion(upper: char -> string, a: set<Triple>, b: set<Triple>)
    ensures Image(upper, a + b) == Image(upper, a).Plus(Image(upper, b))
  {
    hide EdgeOf, Spanned;
    assert EdgeSet(upper, a + b) == EdgeSet(upper, a) + EdgeSet(upper, b);
    SpannedUnion(EdgeSet(upper, a), EdgeSet(upper, b));
  }

  lemma PlusAssociates(a: GraphStore, b: GraphStore, c: GraphStore)
    ensures a.Plus(b).Plus(c) == a.Plus(b.Plus(c))
  {
  }

  lemma GrowBy<T>(s: set<T>, x: T)
    ensures |s + {x}| == |s| + if x in s then 0 else 1
  {
    if x in s {
      assert s + {x} == s;
    }
  }

  lemma CreatedIsGrowth(g: GraphStore, e: Edge)
    ensures MergeEdge(g, e).Size() == g.Size() + Created(g, e)
  {
    assert g.nodes + {e.from, e.to} == (g.nodes + {e.from}) + {e.to};
    GrowBy(g.nodes, e.from);
    GrowBy(g.nodes + {e.from}, e.to);
    GrowBy(g.edges, e);
  }

  lemma StatementIsNotBlank(upper: char -> string, t: Triple)
    ensures !Text.Blank(Statement(upper, t))
  {
    var s := Statement(upper, t);
    assert s[0] == HEAD[0] == 'M';
    assert s[0] in s;
  }

  ghost function Merged(edges: seq<Edge>): GraphStore
  {
    if edges == [] then GraphStore({}, {}) else MergeEdge(Merged(edges[1..]), edges[0])
  }

  lemma MergeThenPlus(g: GraphStore, e: Edge, rest: GraphStore)
    ensures MergeEdge(g, e).Plus(rest) == g.Plus(MergeEdge(rest, e))
  {
  }

  lemma {:induction false} TextsRun(g: GraphStore, texts: seq<string>, edges: seq<Edge>, db: Database, k: nat)
    requires k <= |texts| == |edges|
    requires forall i :: 0 <= i < |texts| ==> !Text.Blank(texts[i]) && ReadStatement(texts[i]) == Some(edges[i])
    ensures var r := RunFrom(g, texts, db, k);
            && (r.Some? <==> forall i :: k <= i < |texts| ==> db.runs(i))
            && (r.Some? ==> r.value.0 == g.Plus(Merged(edges[k..])) && r.value.0.Size() == g.Size() + r.value.1)
    decreases |texts| - k
  {
    hide ReadStatement, Text.Blank, MergeEdge, Created;
    if k == |texts| {
      assert g.Plus(Merged(edges[k..])) == g;
    } else {
      var e := edges[k];
      CreatedIsGrowth(g, e);
      TextsRun(MergeEdge(g, e), texts, edges, db, k + 1);
      assert RunText(g, texts[k]) == Some((MergeEdge(g, e), Created(g, e)));
      assert edges[k..][0] == e && edges[k..][1..] == edges[k + 1..];
      MergeThenPlus(g, e, Merged(edges[k + 1..]));
    }
  }

  lemma SpanOneMore(edges: set<Edge>, e: Edge)
    ensures Spanned(edges + {e}) == MergeEdge(Spanned(edges), e)
  {
    assert Spanned(edges + {e}).nodes == Spanned(edges).nodes + {e.from, e.to};
  }

  lemma {:induction false} MergedIsSpanned(edges: seq<Edge>)
    ensures Merged(edges) == Spanned(Elements(edges))
  {
    if edges == [] {
      assert Merged(edges) == Spanned(Elements(edges));
    } else {
      MergedIsSpanned(edges[1..]);
      assert edges == [edges[0]] + edges[1..];
      assert Elements(edges) == Elements(edges[1..]) + {edges[0]};
      SpanOneMore(Elements(edges[1..]), edges[0]);
    }
  }

  function EdgesOf(upper: char -> string, triples: seq<Triple>): seq<Edge>
  {
    seq(|triples|, i requires 0 <= i < |triples| => EdgeOf(upper, triples[i]))
  }

  lemma MergedIsImage(upper: char -> string, triples: seq<Triple>)
    ensures Merged(EdgesOf(upper, triples)) == Image(upper, Elements(triples))
  {
    hide EdgeOf, Spanned, Merged;
    var edges := EdgesOf(upper, triples);
    forall e ensures e in edges <==> e in EdgeSet(upper, Elements(triples)) {
      if e in EdgeSet(upper, Elements(triples)) {
        var t :| t in triples && e == EdgeOf(upper, t);
        var i :| 0 <= i < |triples| && triples[i] == t;
        assert edges[i] == e;
      }
    }
    MergedIsSpanned(edges);
    assert Elements(edges) == EdgeSet(upper, Elements(triples));
  }

  lemma TranslationRuns(upper: char -> string, g: GraphStore, triples: seq<Triple>, db: Database)
    ensures var r := RunFrom(g, Translate(upper, triples), db, 0);
            && (r.Some? <==> forall i :: 0 <= i < |triples| ==> db.runs(i))
            && (r.Some? ==> r.value.0 == g.Plus(Image(upper, Elements(triples))))
            && (r.Some? ==> r.value.0.Size() == g.Size() + r.value.1)
  {
    hide EdgeOf, Statement, ReadStatement, Text.Blank, RunFrom, Merged, Image;
    var edges := EdgesOf(upper, triples);
    forall i | 0 <= i < |triples|
      ensures var text := Translate(upper, triples)[i];
              !Text.Blank(text) && ReadStatement(text) == Some(edges[i])
    {
      StatementReadsBack(upper, triples[i]);
      StatementIsNotBlank(upper, triples[i]);
    }
    TextsRun(g, Translate(upper, triples), edges, db, 0);
    assert edges[0..] == edges;
    MergedIsImage(upper, triples);
  }

  /** Running the translated texts adds exactly the image of the triples, in whatever order the graph is
      iterated, and the reported count is the growth of the store. It goes through exactly when no call
      fails, and else leaves the store unchanged. */
  lemma BatchAddsImage(upper: char -> string, g: GraphStore, triples: seq<Triple>, db: Database)
    ensures var (g', written) := WriteBatch(g, Translate(upper, triples), db);
            && (written.Some? ==> g' == g.Plus(Image(upper, Elements(triples))))
            && (written.Some? ==> g'.Size() == g.Size() + written.value)
            && (written.None? ==> g' == g)
            && (written.Some? <==> GoesThrough(db, |triples|))
  {
    hide RunFrom, Translate, Image;
    TranslationRuns(upper, g, triples, db);
  }

  /** The order in which the graph is iterated does not matter, and repeating a batch adds nothing. */
  lemma BatchIsIdempotent(
    upper: char -> string, g: GraphStore, first: seq<Triple>, again: seq<Triple>, db: Database)
    requires Elements(first) == Elements(again)
    requires WriteBatch(g, Translate(upper, first), db).1.Some?
    ensures var g' := WriteBatch(g, Translate(upper, first), db).0;
            var (g'', written) := WriteBatch(g', Translate(upper, again), Database(_ => true, true));
            g'' == g' && written == Some(0)
  {
    hide WriteBatch, Image, Translate;
    BatchAddsImage(upper, g, first, db);
    var g' := WriteBatch(g, Translate(upper, first), db).0;
    BatchAddsImage(upper, g', again, Database(_ => true, true));
    assert g'.Plus(Image(upper, Elements(again))) == g';
  }
}
