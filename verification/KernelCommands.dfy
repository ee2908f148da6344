/**
 The kernel's message parser. A governed write arrives as text,
 `execute_governed_write <domain> <nonce>\n<data>`, behind two keyword tests that look at the whole message.
 */
module KernelCommands {
  import opened Text
  import opened Nonce
  import WriteGates

  datatype Intent =
    | SchemaQuestion | ValidationHelp | GovernedWrite(domain: string, nonce: string, data: string)
    | BadFormat | WriteHelp | Greeting

  const COMMAND := "execute_governed_write"

  /** `text.split("\n", 1)`, the missing second part read as empty. */
  function CutLine(s: string): (r: (string, string))
    ensures '\n' !in r.0 && (s == r.0 + "\n" + r.1 || (s == r.0 && r.1 == ""))
  {
    if s == "" then ("", "")
    else if s[0] == '\n' then ("", s[1..])
    else
      var (line, rest) := CutLine(s[1..]);
      ([s[0]] + line, rest)
  }

  function ParseCommand(lower: string -> string, text: string): Intent
  {
    var stripped := Strip(text);
    var low := lower(stripped);
    if Contains(low, "schema") && Contains(low, "it-asset") then SchemaQuestion
    else if Contains(low, "validate") || Contains(low, "verify") then ValidationHelp
    else if COMMAND + " " <= stripped then
      var (line, rest) := CutLine(text);
      var parts := Words(line);
      if |parts| >= 3 then GovernedWrite(parts[1], parts[2], rest) else BadFormat
    else if Contains(low, "write") || Contains(low, "execute") then WriteHelp
    else Greeting
  }

  function Message(domain: string, nonce: string, data: string): string
  {
    COMMAND + " " + (domain + " " + (nonce + "\n" + data))
  }

  /** What is used of lower-casing: it works on the pieces between blanks, and leaves the command word alone. */
  ghost predicate Lowers(lower: string -> string)
  {
    && lower("") == ""
    && lower(COMMAND) == COMMAND
    && forall a, b, c :: IsSpace(c) ==> lower(a + [c] + b) == lower(a) + [c] + lower(b)
  }

  /** Some part of the message mentions the keyword. */
  predicate Mentions(lower: string -> string, domain: string, nonce: string, data: string, k: string)
  {
    Contains(lower(domain), k) || Contains(lower(nonce), k) || Contains(lower(data), k)
  }

  /** The messages the keyword tests take away from the gate. */
  predicate Misrouted(lower: string -> string, domain: string, nonce: string, data: string)
  {
    || (Mentions(lower, domain, nonce, data, "schema") && Mentions(lower, domain, nonce, data, "it-asset"))
    || Mentions(lower, domain, nonce, data, "validate") || Mentions(lower, domain, nonce, data, "verify")
  }

  lemma {:induction false} BlankStaysBlank(lower: string -> string, s: string)
    requires Lowers(lower) && Blank(s)
    ensures Blank(lower(s))
  {
    if s != "" {
      BlankStaysBlank(lower, s[1..]);
      assert s[0] in s;
      assert s == "" + [s[0]] + s[1..];
    }
  }

  lemma BlankLacks(s: string, k: string)
    requires Blank(s) && k != "" && !IsSpace(k[0])
    ensures !Contains(s, k)
  {
    if k[0] !in s {
      LacksCharacter(s, k, k[0]);
    }
  }

  /** Stripping blanks off the end hides no keyword. */
  lemma TailHidesNothing(lower: string -> string, s: string, tail: string, k: string)
    requires Lowers(lower) && Blank(tail) && IsWord(k)
    ensures Contains(lower(s + tail), k) <==> Contains(lower(s), k)
  {
    if tail == "" {
      assert s + tail == s;
    } else {
      var c, rest := tail[0], tail[1..];
      assert c in tail && s + tail == s + [c] + rest;
      assert lower(s + tail) == lower(s) + [c] + lower(rest);
      assert c !in k;
      assert k[0] in k;
      ContainsAcross(lower(s), c, lower(rest), k);
      BlankStaysBlank(lower, rest);
      BlankLacks(lower(rest), k);
    }
  }

  lemma MessageMentions(lower: string -> string, domain: string, nonce: string, data: string, k: string)
    requires Lowers(lower) && IsWord(k) && !Contains(COMMAND, k)
    ensures Contains(lower(Message(domain, nonce, data)), k) <==> Mentions(lower, domain, nonce, data, k)
  {
    var line, rest := nonce + ['\n'] + data, domain + [' '] + (nonce + ['\n'] + data);
    assert ' ' !in k && '\n' !in k;
    assert Message(domain, nonce, data) == COMMAND + [' '] + rest;
    assert lower(COMMAND + [' '] + rest) == lower(COMMAND) + [' '] + lower(rest);
    assert lower(rest) == lower(domain) + [' '] + lower(line);
    assert lower(line) == lower(nonce) + ['\n'] + lower(data);
    ContainsAcross(COMMAND, ' ', lower(rest), k);
    ContainsAcross(lower(domain), ' ', lower(line), k);
    ContainsAcross(lower(nonce), '\n', lower(data), k);
  }

  /** Only the blank end of a message is stripped. */
  lemma MessageStrips(domain: string, nonce: string, data: string)
    requires IsWord(domain)
    ensures var m := Message(domain, nonce, data);
            Strip(m) <= m && COMMAND + " " <= Strip(m) && Blank(m[|Strip(m)|..])
  {
    var m := Message(domain, nonce, data);
    var n := |COMMAND| + 1;
    assert m[0] == 'e';
    assert StripLeft(m) == m;
    assert m[n] == domain[0] && domain[0] in domain;
    StripRightCuts(m, n);
    assert (COMMAND + " ") == m[..n] == Strip(m)[..n];
  }

  lemma MessageKeyword(lower: string -> string, domain: string, nonce: string, data: string, k: string)
    requires Lowers(lower) && IsWord(domain) && IsWord(k) && !Contains(COMMAND, k)
    ensures Contains(lower(Strip(Message(domain, nonce, data))), k) <==> Mentions(lower, domain, nonce, data, k)
  {
    hide Message, Strip, Contains, Lowers, Mentions;
    var m := Message(domain, nonce, data);
    MessageStrips(domain, nonce, data);
    MessageMentions(lower, domain, nonce, data, k);
    assert m == Strip(m) + m[|Strip(m)|..];
    TailHidesNothing(lower, Strip(m), m[|Strip(m)|..], k);
  }

  lemma {:induction false} LineCuts(line: string, data: string)
    requires '\n' !in line
    ensures CutLine(line + "\n" + data) == (line, data)
  {
    var s := line + "\n" + data;
    if line == "" {
      assert s[1..] == data;
    } else {
      assert s[1..] == line[1..] + "\n" + data;
      LineCuts(line[1..], data);
      assert [line[0]] + line[1..] == line;
    }
  }

  lemma ThreeWords(a: string, b: string, c: string)
    requires IsWord(a) && IsWord(b) && IsWord(c)
    ensures Words(a + (" " + (b + (" " + c)))) == [a, b, c]
  {
    var tail2, tail1 := " " + c, " " + (b + (" " + c));
    FirstWord(a, tail1);
    FirstWord(b, tail2);
    FirstWord(c, "");
    assert c + "" == c;
    hide WordLength, IsWord;
    assert tail1[1..] == b + tail2 && tail2[1..] == c;
    assert Words(tail1) == Words(b + tail2);
    assert Words(tail2) == Words(c);
  }

  lemma MessageParts(domain: string, nonce: string, data: string)
    requires IsWord(domain) && IsWord(nonce)
    ensures CutLine(Message(domain, nonce, data)).1 == data
    ensures Words(CutLine(Message(domain, nonce, data)).0) == [COMMAND, domain, nonce]
  {
    hide Words, WordLength, CutLine;
    assert IsWord(COMMAND);
    var line := COMMAND + (" " + (domain + (" " + nonce)));
    ThreeWords(COMMAND, domain, nonce);
    assert '\n' !in COMMAND && '\n' !in domain && '\n' !in nonce;
    assert Message(domain, nonce, data) == line + "\n" + data;
    LineCuts(line, data);
  }

  lemma CommandLacksKeywords()
    ensures !Contains(COMMAND, "schema") && !Contains(COMMAND, "it-asset")
    ensures !Contains(COMMAND, "validate") && !Contains(COMMAND, "verify")
  {
    LacksCharacter(COMMAND, "schema", "schema"[0]);
    LacksCharacter(COMMAND, "it-asset", "it-asset"[2]);
    LacksCharacter(COMMAND, "validate", "validate"[1]);
    LacksCharacter(COMMAND, "verify", "verify"[5]);
  }

  /**
   The command round trip, exactly: a message built from a domain, a nonce and any data reaches the
   gate with all three unchanged, trailing blanks of the data included, if and only if no part
   of it mentions what the two keyword tests look for.
   */
  lemma CommandRoundTrip(lower: string -> string, domain: string, nonce: string, data: string)
    requires Lowers(lower) && IsWord(domain) && IsWord(nonce)
    ensures ParseCommand(lower, Message(domain, nonce, data)) == GovernedWrite(domain, nonce, data)
       <==> !Misrouted(lower, domain, nonce, data)
    ensures Misrouted(lower, domain, nonce, data) ==>
      ParseCommand(lower, Message(domain, nonce, data)) in {SchemaQuestion, ValidationHelp}
  {
    hide Message, Strip, Contains, Lowers, Mentions, Words, CutLine;
    CommandLacksKeywords();
    MessageKeyword(lower, domain, nonce, data, "schema");
    MessageKeyword(lower, domain, nonce, data, "it-asset");
    MessageKeyword(lower, domain, nonce, data, "validate");
    MessageKeyword(lower, domain, nonce, data, "verify");
    MessageParts(domain, nonce, data);
    MessageStrips(domain, nonce, data);
  }

  /** Whatever the text, a write that is parsed out of it carries the bytes after its first line, untouched. */
  lemma ParsedDataIsByteIdentical(lower: string -> string, text: string)
    requires ParseCommand(lower, text).GovernedWrite?
    ensures var w := ParseCommand(lower, text);
            exists line :: '\n' !in line && (text == line + "\n" + w.data || (text == line && w.data == ""))
                           && |Words(line)| >= 3 && w.domain == Words(line)[1] && w.nonce == Words(line)[2]
  {
    hide Strip, Contains, Words;
    var line := CutLine(text).0;
    assert '\n' !in line;
  }

  /** The gate's own check then passes for a message that carries the nonce of its own domain and data. */
  lemma MessagePassesGate(
    lower: string -> string, cfg: WriteGates.GateConfig, consumed: map<string, real>, r: WriteGates.Reads,
    tick: int, domain: string, data: string)
    requires Lowers(lower) && cfg.crypto.Ideal() && IsWord(domain) && IsWord(cfg.crypto.Print(tick, domain, data))
    requires !Misrouted(lower, domain, cfg.crypto.Print(tick, domain, data), data)
    ensures var w := ParseCommand(lower, Message(domain, cfg.crypto.Print(tick, domain, data), data));
            && w.GovernedWrite?
            && (WriteGates.VerifyNonce(cfg, consumed, r, w.domain, w.data, w.nonce).1.None? <==>
                  && r.check - (tick as real) <= cfg.ttl as real
                  && cfg.crypto.Sign(tick, domain, data) !in WriteGates.Cleanup(cfg, consumed, r.prune))
  {
    hide ParseCommand, Message, Lowers, Misrouted, WriteGates.VerifyNonce, Crypto.Print;
    CommandRoundTrip(lower, domain, cfg.crypto.Print(tick, domain, data), data);
    WriteGates.PrintedNonceAcceptedIff(cfg, consumed, r, tick, domain, data, domain, data);
  }

  // The laws of `Lowers` can be met: lower-casing ASCII letters.

  function LowerAscii(s: string): string
  {
    seq(|s|, i requires 0 <= i < |s| =>
      if 'A' <= s[i] <= 'Z' then s[i] - 'A' + 'a' else s[i])
  }

  lemma LoweringExists()
    ensures Lowers(LowerAscii)
  {
    assert LowerAscii(COMMAND) == COMMAND;
    forall a, b, c | IsSpace(c) ensures LowerAscii(a + [c] + b) == LowerAscii(a) + [c] + LowerAscii(b) {
    }
  }

  // ----- What every message is taken for -----

  /** A command message is this text. */
  lemma MessageText(domain: string, nonce: string, data: string)
    ensures Message(domain, nonce, data) == "execute_governed_write " + domain + " " + nonce + "\n" + data
  {
    assert Message(domain, nonce, data) == (COMMAND + " ") + domain + " " + nonce + "\n" + data;
    assert COMMAND + " " == "execute_governed_write ";
  }

  /** The intents, by the words the stripped and lower-cased text contains, in the order they are tried. */
  lemma Intents(lower: string -> string, text: string)
    ensures var low, intent := lower(Strip(text)), ParseCommand(lower, text);
            var schema := Contains(low, "schema") && Contains(low, "it-asset");
            var validation := Contains(low, "validate") || Contains(low, "verify");
            var command := "execute_governed_write " <= Strip(text);
            var enough := |Words(CutLine(text).0)| >= 3;
            && (intent.SchemaQuestion? <==> schema)
            && (intent.ValidationHelp? <==> !schema && validation)
            && (intent.GovernedWrite? <==> !schema && !validation && command && enough)
            && (intent.BadFormat? <==> !schema && !validation && command && !enough)
            && (intent.WriteHelp? <==>
                  !schema && !validation && !command && (Contains(low, "write") || Contains(low, "execute")))
            && (intent.Greeting? <==>
                  !schema && !validation && !command && !Contains(low, "write") && !Contains(low, "execute"))
  {
    hide Contains, Words, CutLine, Strip;
    assert COMMAND + " " == "execute_governed_write ";
  }

  /** A command behind a blank first line never reaches the gate, although its stripped text starts with the command. */
  lemma LeadingLineIsBadFormat(lower: string -> string, blank: string, rest: string)
    requires Blank(blank) && '\n' !in blank
    ensures !ParseCommand(lower, blank + "\n" + rest).GovernedWrite?
  {
    LineCuts(blank, rest);
    WordsAfterBlanks(blank, "");
    assert blank + "" == blank;
  }

  /** Every text that starts with the command word contains two of the words that are charged for. */
  lemma WriteContainsCommand(lower: string -> string, text: string)
    requires Lowers(lower) && COMMAND + " " <= Strip(text)
    ensures Contains(lower(Strip(text)), "write") && Contains(lower(Strip(text)), "execute")
  {
    var s := Strip(text);
    var rest := s[|COMMAND| + 1..];
    assert s == COMMAND + [' '] + rest;
    assert lower(s) == COMMAND + [' '] + lower(rest);
    assert COMMAND[17..22] == "write" && COMMAND[0..7] == "execute";
    assert At(COMMAND, 17, "write") && At(COMMAND, 0, "execute");
    ContainsAcross(COMMAND, ' ', lower(rest), "write");
    ContainsAcross(COMMAND, ' ', lower(rest), "execute");
  }
}
