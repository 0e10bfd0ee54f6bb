/** The hash-chained audit log: append, restart, verify. */
module AuditChain {
  import opened Common
  import opened TextLines

  /** `body` stands for every field of a record except the two that chain it. */
  datatype Record<B> = Record(body: B, previousHash: string, hash: Option<string>)

  /** A line of the log file: blank, not a JSON record, or a record. */
  datatype Line<B> = Blank | Garbage | Entry(record: Record<B>)

  /** Verification answers true, answers false, or raises on a line it cannot parse. */
  datatype Verdict = Intact | Broken | Unreadable

  /**
   * The digest, the canonical text of a record without its `hash` field and its reading, the JSON text of the remaining
   * fields and of one quoted string, and the reading of one line.
   */
  datatype Codec<!B> = Codec(
    digest: string -> string,
    canon: (B, string) -> string,
    uncanon: string -> (B, string),
    fields: B -> string,
    quote: string -> string,
    parse: string -> Line<B>
  ) {
    function Input(previous: string, r: Record<B>): string {
      previous + "|" + canon(r.body, r.previousHash)
    }

    function Hash(previous: string, r: Record<B>): string {
      digest(Input(previous, r))
    }

    /** The record the logger writes for `body` when it remembers `previous`. */
    function Stamp(previous: string, body: B): Record<B> {
      var bare := Record(body, previous, None);
      bare.(hash := Some(Hash(previous, bare)))
    }

    /** The JSON text the logger writes for a record, without the line feed that ends it. */
    function Text(r: Record<B>): string {
      "{" + fields(r.body) + ChainingText(r)
    }

    function ChainingText(r: Record<B>): string {
      ", \"previous_hash\": " + quote(r.previousHash)
      + (if r.hash.Some? then ", \"hash\": " + quote(r.hash.value) else "") + "}"
    }
  }

  predicate Hex(s: string) {
    forall i :: 0 <= i < |s| ==> '0' <= s[i] <= '9' || 'a' <= s[i] <= 'f'
  }

  /**
   * What the codec is taken to satisfy. Digests are hexadecimal and the canonical text is lossless. JSON text escapes
   * every control character below U+0020 (section 7 of RFC 8259) and reads back as the record it was written for. When
   * reading cuts the text of a record, the first piece is an unfinished object, and no later piece, which starts within
   * a string, is an object with a `hash`.
   */
  ghost predicate Sound<B(!new)>(c: Codec<B>) {
    && (forall x: string :: c.digest(x) != "" && Hex(c.digest(x)))
    && (forall b: B, p: string :: c.uncanon(c.canon(b, p)) == (b, p))
    && (forall b: B, i: nat :: i < |c.fields(b)| ==> c.fields(b)[i] >= ' ')
    && (forall h: string :: Hex(h) ==> c.quote(h) == "\"" + h + "\"")
    && (forall r: Record<B> :: c.parse(c.Text(r)) == Entry(r))
    && (forall r: Record<B> :: Cut(c.Text(r)) ==> Shattered(Lines(c, c.Text(r))))
  }

  /** Pieces that start with an unreadable one and hold no hash. */
  ghost predicate Shattered<B>(pieces: seq<Line<B>>) {
    && pieces != [] && pieces[0] == Garbage
    && forall i :: 0 <= i < |pieces| && pieces[i].Entry? ==> pieces[i].record.hash == None
  }

  function Lines<B>(c: Codec<B>, text: string): seq<Line<B>> {
    var split := SplitLines(text);
    seq(|split|, i requires 0 <= i < |split| => c.parse(split[i]))
  }

  lemma LinesConcat<B>(c: Codec<B>, a: string, b: string)
    requires Terminated(a)
    ensures Lines(c, a + b) == Lines(c, a) + Lines(c, b)
  {
    SplitConcat(a, b);
  }

  /** Since JSON escapes control characters, only three characters are left to cut a record. */
  lemma CutIffSeparator<B(!new)>(c: Codec<B>, body: B)
    requires Sound(c)
    ensures Cut(c.fields(body)) <==> exists i :: 0 <= i < |c.fields(body)| && Separator(c.fields(body)[i])
  {
    var text := c.fields(body);
    if Cut(text) {
      var i: nat :| i < |text| && LineBoundary(text[i]);
      assert text[i] >= ' ';
    }
  }

  // ----- verification and loading

  function Verify<B>(c: Codec<B>, lines: seq<Line<B>>, previous: string): Verdict {
    if lines == [] then Intact
    else match lines[0]
      case Blank => Verify(c, lines[1..], previous)
      case Garbage => Unreadable
      case Entry(r) =>
        if r.hash != Some(c.Hash(previous, r)) then Broken else Verify(c, lines[1..], r.hash.value)
  }

  /** The hash field of the last line that is a record, or `initial` without one. */
  function LastHash<B>(lines: seq<Line<B>>, initial: string): string {
    if lines == [] then initial
    else match lines[|lines| - 1]
      case Entry(r) => r.hash.GetOr("")
      case _ => LastHash(lines[..|lines| - 1], initial)
  }

  method VerifyIntegrity<B(==)>(c: Codec<B>, text: string) returns (v: Verdict)
    ensures v == Verify(c, Lines(c, text), "")
  {
    var split := SplitLines(text);
    ghost var lines := Lines(c, text);
    var previous := "";
    for i := 0 to |split|
      invariant Verify(c, lines, "") == Verify(c, lines[i..], previous)
    {
      assert lines[i..][1..] == lines[i + 1..];
      match c.parse(split[i]) {
        case Blank =>
        case Garbage => return Unreadable;
        case Entry(r) =>
          if r.hash != Some(c.Hash(previous, r)) { return Broken; }
          previous := r.hash.value;
      }
    }
    v := Intact;
  }

  method LoadPreviousHash<B>(c: Codec<B>, text: string) returns (lastHash: string)
    ensures lastHash == LastHash(Lines(c, text), "")
  {
    var split := SplitLines(text);
    ghost var lines := Lines(c, text);
    lastHash := "";
    for i := 0 to |split|
      invariant lastHash == LastHash(lines[..i], "")
    {
      assert lines[..i + 1][..i] == lines[..i];
      match c.parse(split[i]) {
        case Entry(r) => lastHash := r.hash.GetOr("");
        case _ =>
      }
    }
    assert lines[..|lines|] == lines;
  }

  lemma {:induction false} VerifyConcat<B>(c: Codec<B>, a: seq<Line<B>>, b: seq<Line<B>>, previous: string)
    ensures Verify(c, a + b, previous)
         == if Verify(c, a, previous) != Intact then Verify(c, a, previous) else Verify(c, b, LastHash(a, previous))
  {
    if a != [] {
      assert (a + b)[1..] == a[1..] + b;
      var next := if a[0].Entry? then a[0].record.hash.GetOr("") else previous;
      VerifyConcat(c, a[1..], b, next);
      LastHashTail(a, previous);
    } else {
      assert a + b == b;
    }
  }

  lemma {:induction false} LastHashTail<B>(lines: seq<Line<B>>, initial: string)
    requires lines != []
    ensures LastHash(lines, initial)
         == LastHash(lines[1..], if lines[0].Entry? then lines[0].record.hash.GetOr("") else initial)
  {
    var n := |lines| - 1;
    if n > 0 && !lines[n].Entry? {
      assert lines[..n][1..] == lines[1..][..n - 1];
      LastHashTail(lines[..n], initial);
    } else if n == 0 {
      assert lines[..0] == [] && lines[1..] == [];
    }
  }

  // ----- tamper evidence

  function Records<B>(lines: seq<Line<B>>): seq<Record<B>> {
    if lines == [] then []
    else
      var rest := Records(lines[..|lines| - 1]);
      match lines[|lines| - 1]
      case Entry(r) => rest + [r]
      case _ => rest
  }

  /** Every text that verifying the log feeds to the digest. */
  function Inputs<B>(c: Codec<B>, lines: seq<Line<B>>): set<string> {
    if lines == [] then {}
    else
      var before := lines[..|lines| - 1];
      match lines[|lines| - 1]
      case Entry(r) => Inputs(c, before) + {c.Input(LastHash(before, ""), r)}
      case _ => Inputs(c, before)
  }

  /** No text hashed for one log collides with a different text hashed for the other. */
  ghost predicate NoCollision<B>(c: Codec<B>, a: seq<Line<B>>, b: seq<Line<B>>) {
    forall x, y :: x in Inputs(c, a) && y in Inputs(c, b) && c.digest(x) == c.digest(y) ==> x == y
  }

  /** The separator is unambiguous: what stands before it never contains it. */
  lemma SeparatorUnambiguous(p1: string, s1: string, p2: string, s2: string)
    requires '|' !in p1 && '|' !in p2 && p1 + "|" + s1 == p2 + "|" + s2
    ensures p1 == p2 && s1 == s2
  {
    FirstSeparator('|', p1, s1, p2, s2);
  }

  /** An intact log ends in a digest, unless it holds no record at all. */
  lemma {:induction false} IntactEnd<B(!new)>(c: Codec<B>, lines: seq<Line<B>>)
    requires Sound(c) && Verify(c, lines, "") == Intact
    ensures Hex(LastHash(lines, ""))
    ensures LastHash(lines, "") == "" <==> Records(lines) == []
    ensures lines != [] ==> !lines[|lines| - 1].Garbage? && Verify(c, lines[..|lines| - 1], "") == Intact
    ensures lines != [] && lines[|lines| - 1].Entry? ==>
      var before, r := lines[..|lines| - 1], lines[|lines| - 1].record;
      r.hash == Some(c.Hash(LastHash(before, ""), r))
  {
    if lines != [] {
      var before, last := lines[..|lines| - 1], lines[|lines| - 1];
      assert lines == before + [last];
      VerifyConcat(c, before, [last], "");
      if last.Blank? { IntactEnd(c, before); }
    }
  }

  /**
   * Main result: two intact logs that end in the same hash hold the same records, field by field,
   * unless their verification hashed two different texts to one digest.
   */
  lemma {:induction false} SameEndSameRecords<B(!new)>(c: Codec<B>, a: seq<Line<B>>, b: seq<Line<B>>)
    requires Sound(c) && NoCollision(c, a, b)
    requires Verify(c, a, "") == Intact && Verify(c, b, "") == Intact
    requires LastHash(a, "") == LastHash(b, "")
    ensures Records(a) == Records(b)
    decreases |a| + |b|
  {
    IntactEnd(c, a);
    IntactEnd(c, b);
    if a != [] && a[|a| - 1].Blank? {
      SameEndSameRecords(c, a[..|a| - 1], b);
    } else if b != [] && b[|b| - 1].Blank? {
      SameEndSameRecords(c, a, b[..|b| - 1]);
    } else if a != [] && b != [] {
      var beforeA, ra := a[..|a| - 1], a[|a| - 1].record;
      var beforeB, rb := b[..|b| - 1], b[|b| - 1].record;
      var x, y := c.Input(LastHash(beforeA, ""), ra), c.Input(LastHash(beforeB, ""), rb);
      assert x in Inputs(c, a) && y in Inputs(c, b);
      assert x == y;
      IntactEnd(c, beforeA);
      IntactEnd(c, beforeB);
      SeparatorUnambiguous(LastHash(beforeA, ""), c.canon(ra.body, ra.previousHash),
                           LastHash(beforeB, ""), c.canon(rb.body, rb.previousHash));
      assert Inputs(c, beforeA) <= Inputs(c, a) && Inputs(c, beforeB) <= Inputs(c, b);
      SameEndSameRecords(c, beforeA, beforeB);
    }
  }

  // ----- appending

  /**
   * The line or lines as which the text of a record is read back: the record itself, or pieces without a hash when its
   * text holds a boundary.
   */
  lemma AppendedLines<B(!new)>(c: Codec<B>, text: string, r: Record<B>)
    requires Sound(c) && Terminated(text)
    ensures Lines(c, text + c.Text(r) + "\n") == Lines(c, text) + Lines(c, c.Text(r))
    ensures Terminated(text + c.Text(r) + "\n")
    ensures if Cut(c.Text(r)) then Shattered(Lines(c, c.Text(r))) else Lines(c, c.Text(r)) == [Entry(r)]
  {
    var written := c.Text(r);
    assert written[|written| - 1] == '}';
    SplitEnded(written);
    LinesConcat(c, text, written + "\n");
    Regroup(text, written, "\n");
    if !Cut(written) { SplitWhole(written); }
  }

  /** The chaining fields never hold a boundary: whether a record is cut depends on its body alone. */
  lemma CutIffBodyCut<B(!new)>(c: Codec<B>, r: Record<B>)
    requires Sound(c) && Hex(r.previousHash) && r.hash.Some? && Hex(r.hash.value)
    ensures Cut(c.Text(r)) <==> Cut(c.fields(r.body))
  {
    CutConcat("{", c.fields(r.body));
    CutConcat("{" + c.fields(r.body), c.ChainingText(r));
    ChainingWhole(c, r);
  }

  lemma ChainingWhole<B(!new)>(c: Codec<B>, r: Record<B>)
    requires Sound(c) && Hex(r.previousHash) && r.hash.Some? && Hex(r.hash.value)
    ensures !Cut(c.ChainingText(r))
  {
    var previous, hash := ", \"previous_hash\": " + c.quote(r.previousHash), ", \"hash\": " + c.quote(r.hash.value);
    QuotedWhole(c, r.previousHash);
    QuotedWhole(c, r.hash.value);
    CutConcat(", \"previous_hash\": ", c.quote(r.previousHash));
    CutConcat(", \"hash\": ", c.quote(r.hash.value));
    CutConcat(previous, hash);
    CutConcat(previous + hash, "}");
  }

  lemma QuotedWhole<B(!new)>(c: Codec<B>, hash: string)
    requires Sound(c) && Hex(hash)
    ensures !Cut(c.quote(hash))
  {
    var quoted := c.quote(hash);
    assert forall i :: 0 < i < |quoted| - 1 ==> quoted[i] == hash[i - 1];
  }

  /**
   * Appending with a remembered hash keeps an intact log intact exactly when that hash is the log's last one and the
   * text of the record holds no line boundary; a second logger whose memory has gone stale is always found out (short
   * of a digest collision).
   */
  lemma AppendKeepsIntact<B(!new)>(c: Codec<B>, text: string, remembered: string, body: B)
    requires Sound(c) && Terminated(text)
    ensures var r, lines := c.Stamp(remembered, body), Lines(c, text);
      var after, last := Lines(c, text + c.Text(r) + "\n"), LastHash(lines, "");
      Verify(c, lines, "") == Intact && Distinguishes(c, remembered, last, r) ==>
        && (Verify(c, after, "") == Intact <==> remembered == last && !Cut(c.fields(body)))
        && (Verify(c, after, "") == Broken <==> remembered != last && !Cut(c.Text(r)))
  {
    var r, lines := c.Stamp(remembered, body), Lines(c, text);
    var last, pieces := LastHash(lines, ""), Lines(c, c.Text(r));
    AppendedLines(c, text, r);
    VerifyConcat(c, lines, pieces, "");
    if Verify(c, lines, "") == Intact {
      IntactEnd(c, lines);
      if remembered == last {
        CutIffBodyCut(c, r);
      } else {
        SameSuffix(remembered, last, c.canon(body, remembered));
      }
      if pieces == [Entry(r)] { assert pieces[1..] == []; }
    }
  }

  /** The digest tells the record behind one hash from the same record behind another. */
  ghost predicate Distinguishes<B>(c: Codec<B>, a: string, b: string, r: Record<B>) {
    c.Hash(a, r) == c.Hash(b, r) ==> c.Input(a, r) == c.Input(b, r)
  }

  /** What one append does to a file that was intact, for a logger that remembered its last hash. */
  lemma AppendSyncs<B(!new)>(c: Codec<B>, text: string, remembered: string, body: B)
    requires Sound(c) && Terminated(text)
    ensures var r, lines := c.Stamp(remembered, body), Lines(c, text);
      var after := Lines(c, text + c.Text(r) + "\n");
      && (!Cut(c.Text(r)) ==> LastHash(after, "") == r.hash.value)
      && (remembered == LastHash(lines, "") && Verify(c, lines, "") == Intact ==>
           (Verify(c, after, "") == Intact <==> !Cut(c.fields(body))))
  {
    var r, lines := c.Stamp(remembered, body), Lines(c, text);
    AppendedLines(c, text, r);
    if !Cut(c.Text(r)) { RecordsAppend(lines, r); }
    if remembered == LastHash(lines, "") && Verify(c, lines, "") == Intact {
      AppendKeepsIntact(c, text, remembered, body);
    }
  }

  lemma SameSuffix(a: string, b: string, s: string)
    requires a != b
    ensures a + "|" + s != b + "|" + s
  {
    assert a == (a + "|" + s)[..|a|] && b == (b + "|" + s)[..|b|];
  }

  /** Verification recomputes the chain and never reads `previous_hash`, so that field may claim anything. */
  lemma PreviousHashFieldUnread<B>(c: Codec<B>, body: B, claimed: string)
    ensures var bare := Record(body, claimed, None);
      Verify(c, [Entry(bare.(hash := Some(c.Hash("", bare))))], "") == Intact
  {
    var bare := Record(body, claimed, None);
    var r := bare.(hash := Some(c.Hash("", bare)));
    assert c.Hash("", r) == c.Hash("", bare);
    assert [Entry(r)][1..] == [];
  }

  /** A line that is not a record can be skipped on restart, but no log holding one ever verifies again. */
  lemma {:induction false} GarbageNeverVerifies<B>(c: Codec<B>, lines: seq<Line<B>>, previous: string)
    requires Garbage in lines
    ensures Verify(c, lines, previous) != Intact
  {
    if lines[0].Blank? {
      GarbageNeverVerifies(c, lines[1..], previous);
    } else if lines[0].Entry? {
      GarbageNeverVerifies(c, lines[1..], lines[0].record.hash.GetOr(""));
    }
  }

  // ----- runs of one logger with restarts

  datatype Op<B> = Append(body: B) | Restart

  datatype State = State(text: string, previousHash: string)

  function Step<B>(c: Codec<B>, s: State, op: Op<B>): State {
    match op
    case Append(body) =>
      var r := c.Stamp(s.previousHash, body);
      State(s.text + c.Text(r) + "\n", r.hash.value)
    case Restart => s.(previousHash := LastHash(Lines(c, s.text), ""))
  }

  function Run<B>(c: Codec<B>, ops: seq<Op<B>>): State {
    if ops == [] then State("", "") else Step(c, Run(c, ops[..|ops| - 1]), ops[|ops| - 1])
  }

  /** The bodies appended by a run, in order. */
  function Appended<B>(ops: seq<Op<B>>): seq<B> {
    if ops == [] then []
    else
      var rest := Appended(ops[..|ops| - 1]);
      match ops[|ops| - 1] case Append(body) => rest + [body] case Restart => rest
  }

  /** The hash behind which `bodies` are chained. */
  function ChainHash<B>(c: Codec<B>, bodies: seq<B>): string {
    if bodies == [] then ""
    else c.Stamp(ChainHash(c, bodies[..|bodies| - 1]), bodies[|bodies| - 1]).hash.value
  }

  /** The log of `bodies` as it should be: each record stamped with the hash of the record before it. */
  function Chain<B>(c: Codec<B>, bodies: seq<B>): seq<Line<B>> {
    if bodies == [] then []
    else
      var before := bodies[..|bodies| - 1];
      Chain(c, before) + [Entry(c.Stamp(ChainHash(c, before), bodies[|bodies| - 1]))]
  }

  function Bodies<B>(records: seq<Record<B>>): seq<B> {
    seq(|records|, i requires 0 <= i < |records| => records[i].body)
  }

  /** Every record names the hash of the record before it. */
  ghost predicate Linked<B>(records: seq<Record<B>>) {
    && (records != [] ==> records[0].previousHash == "")
    && forall i :: 0 < i < |records| ==> records[i - 1].hash == Some(records[i].previousHash)
  }

  predicate Whole<B>(c: Codec<B>, bodies: seq<B>) {
    forall i :: 0 <= i < |bodies| ==> !Cut(c.fields(bodies[i]))
  }

  lemma ChainAppend<B>(c: Codec<B>, bodies: seq<B>, body: B)
    ensures var r := c.Stamp(ChainHash(c, bodies), body);
      && Chain(c, bodies + [body]) == Chain(c, bodies) + [Entry(r)]
      && ChainHash(c, bodies + [body]) == r.hash.value
  {
    var all := bodies + [body];
    assert all[..|all| - 1] == bodies && all[|all| - 1] == body;
  }

  /** The chain of any bodies is an intact, linked log of exactly these bodies. */
  lemma ChainIntact<B(!new)>(c: Codec<B>, bodies: seq<B>)
    requires Sound(c)
    ensures Verify(c, Chain(c, bodies), "") == Intact
    ensures LastHash(Chain(c, bodies), "") == ChainHash(c, bodies) && Hex(ChainHash(c, bodies))
    ensures Linked(Records(Chain(c, bodies))) && Bodies(Records(Chain(c, bodies))) == bodies
  {
    ChainVerifies(c, bodies);
    ChainHolds(c, bodies);
  }

  lemma {:induction false} ChainVerifies<B(!new)>(c: Codec<B>, bodies: seq<B>)
    requires Sound(c)
    ensures Verify(c, Chain(c, bodies), "") == Intact
    ensures LastHash(Chain(c, bodies), "") == ChainHash(c, bodies) && Hex(ChainHash(c, bodies))
  {
    if bodies != [] {
      var before, body := bodies[..|bodies| - 1], bodies[|bodies| - 1];
      var lines := Chain(c, before);
      ChainVerifies(c, before);
      OneMoreVerifies(c, lines, body);
      RecordsAppend(lines, c.Stamp(ChainHash(c, before), body));
    }
  }

  lemma {:induction false} ChainHolds<B>(c: Codec<B>, bodies: seq<B>)
    ensures var records := Records(Chain(c, bodies));
      Linked(records) && Bodies(records) == bodies && EndsIn(records, ChainHash(c, bodies))
  {
    if bodies != [] {
      var before, body := bodies[..|bodies| - 1], bodies[|bodies| - 1];
      var r := c.Stamp(ChainHash(c, before), body);
      ChainHolds(c, before);
      RecordsAppend(Chain(c, before), r);
      BodiesAppend(Records(Chain(c, before)), r);
      assert bodies == before + [body];
    }
  }

  /** The hash of the last record, empty without one. */
  ghost predicate EndsIn<B>(records: seq<Record<B>>, hash: string) {
    if records == [] then hash == "" else records[|records| - 1].hash == Some(hash)
  }

  lemma OneMoreVerifies<B>(c: Codec<B>, lines: seq<Line<B>>, body: B)
    requires Verify(c, lines, "") == Intact
    ensures Verify(c, lines + [Entry(c.Stamp(LastHash(lines, ""), body))], "") == Intact
  {
    var r := c.Stamp(LastHash(lines, ""), body);
    VerifyConcat(c, lines, [Entry(r)], "");
    assert [Entry(r)][1..] == [];
  }

  lemma RecordsAppend<B>(lines: seq<Line<B>>, r: Record<B>)
    ensures Records(lines + [Entry(r)]) == Records(lines) + [r]
    ensures LastHash(lines + [Entry(r)], "") == r.hash.GetOr("")
  {
    assert (lines + [Entry(r)])[..|lines|] == lines;
  }

  lemma BodiesAppend<B>(records: seq<Record<B>>, r: Record<B>)
    requires Linked(records)
    requires EndsIn(records, r.previousHash)
    ensures Linked(records + [r]) && Bodies(records + [r]) == Bodies(records) + [r.body]
  {
    var all := records + [r];
    assert forall i :: 0 <= i < |records| ==> all[i] == records[i];
  }

  /**
   * A run of appends and restarts leaves an intact log, namely the chain of the appended bodies, exactly when the text
   * of no appended body holds a line boundary; otherwise verification raises.
   */
  lemma {:induction false} RunsVerify<B(!new)>(c: Codec<B>, ops: seq<Op<B>>)
    requires Sound(c)
    ensures Verify(c, Lines(c, Run(c, ops).text), "") == if Whole(c, Appended(ops)) then Intact else Unreadable
    ensures Whole(c, Appended(ops)) ==> Lines(c, Run(c, ops).text) == Chain(c, Appended(ops))
  {
    if ops != [] {
      var before, op := ops[..|ops| - 1], ops[|ops| - 1];
      RunsVerify(c, before);
      if op.Append? {
        var run, bodies := Run(c, before), Appended(before);
        MemoryHolds(c, before);
        AppendReads(c, run.text, run.previousHash, op.body);
        WholeAppend(c, bodies, op.body);
        if Whole(c, bodies + [op.body]) {
          WholeRemembered(c, before);
          ChainAppend(c, bodies, op.body);
          ChainIntact(c, bodies + [op.body]);
        }
      }
    }
  }

  /** How the file reads after one append, whatever it held before. */
  lemma AppendReads<B(!new)>(c: Codec<B>, text: string, remembered: string, body: B)
    requires Sound(c) && Terminated(text) && Hex(remembered)
    ensures var r := c.Stamp(remembered, body);
      var before, after := Lines(c, text), Lines(c, text + c.Text(r) + "\n");
      if Cut(c.fields(body)) then
        && LastHash(after, "") == (if Records(Lines(c, c.Text(r))) == [] then LastHash(before, "") else "")
        && Verify(c, after, "") == (if Verify(c, before, "") == Intact then Unreadable else Verify(c, before, ""))
      else
        && after == before + [Entry(r)] && LastHash(after, "") == r.hash.value
        && (Verify(c, before, "") != Intact ==> Verify(c, after, "") == Verify(c, before, ""))
  {
    var r, lines := c.Stamp(remembered, body), Lines(c, text);
    AppendedLines(c, text, r);
    CutIffBodyCut(c, r);
    VerifyConcat(c, lines, Lines(c, c.Text(r)), "");
    if Cut(c.Text(r)) {
      LastHashShattered(lines, Lines(c, c.Text(r)));
    } else {
      RecordsAppend(lines, r);
    }
  }

  lemma WholeAppend<B>(c: Codec<B>, bodies: seq<B>, body: B)
    ensures Whole(c, bodies + [body]) <==> Whole(c, bodies) && !Cut(c.fields(body))
  {
    var all := bodies + [body];
    assert all[|bodies|] == body && forall i :: 0 <= i < |bodies| ==> bodies[i] == all[i];
  }

  // ----- what the remembered hash stands for

  /** The bodies chained behind the remembered hash, and behind the hash that a restart would load. */
  datatype Memory<B> = Memory(kept: seq<B>, onFile: seq<B>)

  function Remembers<B>(c: Codec<B>, ops: seq<Op<B>>): Memory<B> {
    if ops == [] then Memory([], [])
    else
      var m := Remembers(c, ops[..|ops| - 1]);
      match ops[|ops| - 1]
      case Restart => m.(kept := m.onFile)
      case Append(body) => Remember(c, m, body)
  }

  /** A cut record reaches the memory but not the file, where a piece that is an object hides all before it. */
  function Remember<B>(c: Codec<B>, m: Memory<B>, body: B): Memory<B> {
    var kept := m.kept + [body];
    var r := c.Stamp(ChainHash(c, m.kept), body);
    if !Cut(c.fields(body)) then Memory(kept, kept)
    else Memory(kept, if Records(Lines(c, c.Text(r))) == [] then m.onFile else [])
  }

  /** The hashes of a run are those of two chains, whatever was appended. */
  ghost predicate Recalls<B>(c: Codec<B>, s: State, m: Memory<B>) {
    && Terminated(s.text)
    && s.previousHash == ChainHash(c, m.kept)
    && LastHash(Lines(c, s.text), "") == ChainHash(c, m.onFile)
  }

  lemma {:induction false} MemoryHolds<B(!new)>(c: Codec<B>, ops: seq<Op<B>>)
    requires Sound(c)
    ensures Recalls(c, Run(c, ops), Remembers(c, ops)) && Hex(Run(c, ops).previousHash)
  {
    if ops != [] {
      var before, op := ops[..|ops| - 1], ops[|ops| - 1];
      MemoryHolds(c, before);
      if op.Append? {
        var run, kept := Run(c, before), Remembers(c, before).kept;
        AppendedLines(c, run.text, c.Stamp(run.previousHash, op.body));
        AppendReads(c, run.text, run.previousHash, op.body);
        ChainAppend(c, kept, op.body);
      }
    }
    ChainIntact(c, Remembers(c, ops).kept);
  }

  lemma {:induction false} LastHashShattered<B>(lines: seq<Line<B>>, pieces: seq<Line<B>>)
    requires forall i :: 0 <= i < |pieces| && pieces[i].Entry? ==> pieces[i].record.hash == None
    ensures LastHash(lines + pieces, "") == if Records(pieces) == [] then LastHash(lines, "") else ""
  {
    if pieces == [] {
      assert lines + pieces == lines;
    } else {
      var all, before := lines + pieces, pieces[..|pieces| - 1];
      assert all[..|all| - 1] == lines + before;
      LastHashShattered(lines, before);
    }
  }

  predicate EndsWhole<B>(c: Codec<B>, bodies: seq<B>) {
    bodies != [] ==> !Cut(c.fields(bodies[|bodies| - 1]))
  }

  /** Before every restart the latest appended body was one that reading does not cut. */
  predicate CleanRestarts<B>(c: Codec<B>, ops: seq<Op<B>>) {
    ops != [] ==>
      var before := ops[..|ops| - 1];
      CleanRestarts(c, before) && (ops[|ops| - 1].Restart? ==> EndsWhole(c, Appended(before)))
  }

  /** The remembered hash stands for everything appended exactly when no restart followed a cut record. */
  lemma {:induction false} KeptIffClean<B>(c: Codec<B>, ops: seq<Op<B>>)
    ensures var m, bodies := Remembers(c, ops), Appended(ops);
      && (m.kept == bodies <==> CleanRestarts(c, ops))
      && (m.kept == bodies || |m.kept| < |bodies|) && (m.onFile == m.kept || |m.onFile| < |m.kept|)
      && (m.kept == bodies ==> (m.onFile == m.kept <==> EndsWhole(c, bodies)))
  {
    if ops != [] {
      var before, op := ops[..|ops| - 1], ops[|ops| - 1];
      KeptIffClean(c, before);
      if op.Append? { AppendedKept(c, Remembers(c, before), Appended(before), op.body); }
    }
  }

  lemma AppendedKept<B>(c: Codec<B>, m: Memory<B>, bodies: seq<B>, body: B)
    requires m.kept == bodies || |m.kept| < |bodies|
    requires m.onFile == m.kept || |m.onFile| < |m.kept|
    ensures var m', all := Remember(c, m, body), bodies + [body];
      && (m'.kept == all <==> m.kept == bodies)
      && (m'.kept == all || |m'.kept| < |all|) && (m'.onFile == m'.kept || |m'.onFile| < |m'.kept|)
      && (m'.onFile == m'.kept <==> EndsWhole(c, all))
  {
  }

  lemma {:induction false} WholeRemembered<B>(c: Codec<B>, ops: seq<Op<B>>)
    requires Whole(c, Appended(ops))
    ensures Remembers(c, ops) == Memory(Appended(ops), Appended(ops))
  {
    if ops != [] {
      var before := ops[..|ops| - 1];
      if ops[|ops| - 1].Append? { WholeAppend(c, Appended(before), ops[|ops| - 1].body); }
      WholeRemembered(c, before);
    }
  }

  /**
   * End to end: any file that verifies and ends in the hash a logger remembers holds exactly the bodies that hash
   * stands for, in order, however the file came about; they are everything that was appended exactly when no restart
   * followed a record that reading cuts.
   */
  lemma RememberedHashFixesHistory<B(!new)>(c: Codec<B>, ops: seq<Op<B>>, found: seq<Line<B>>)
    requires Sound(c)
    ensures var kept := Remembers(c, ops).kept;
      && Verify(c, found, "") == Intact && LastHash(found, "") == Run(c, ops).previousHash
      && NoCollision(c, Chain(c, kept), found) ==>
        && Bodies(Records(found)) == kept
        && (Bodies(Records(found)) == Appended(ops) <==> CleanRestarts(c, ops))
  {
    var kept := Remembers(c, ops).kept;
    MemoryHolds(c, ops);
    ChainIntact(c, kept);
    KeptIffClean(c, ops);
    if Verify(c, found, "") == Intact && LastHash(found, "") == Run(c, ops).previousHash
      && NoCollision(c, Chain(c, kept), found)
    {
      SameEndSameRecords(c, Chain(c, kept), found);
    }
  }

  /** One append of text with a line separator makes verification raise, and a restart forgets it was appended. */
  lemma LineSeparatorBreaksLog<B(!new)>(c: Codec<B>, body: B)
    requires Sound(c) && exists i :: 0 <= i < |c.fields(body)| && c.fields(body)[i] == '\U{2028}'
    ensures Verify(c, Lines(c, Run(c, [Append(body)]).text), "") == Unreadable
    ensures Run(c, [Append(body), Restart]).previousHash == ""
  {
    CutIffSeparator(c, body);
    AppendReads(c, "", "", body);
    FirstSteps(c, body);
    assert Lines(c, "") == [];
  }

  lemma FirstSteps<B>(c: Codec<B>, body: B)
    ensures Run(c, [Append(body)]).text == "" + c.Text(c.Stamp("", body)) + "\n"
    ensures Run(c, [Append(body), Restart]).previousHash == LastHash(Lines(c, Run(c, [Append(body)]).text), "")
  {
    var one, two := [Append(body)], [Append(body), Restart];
    assert one[..0] == [] && two[..1] == one;
  }

  // ----- the objects

  class LogFile {
    var text: string

    constructor ()
      ensures text == ""
    {
      text := "";
    }
  }

  class AuditLogger<B(!new, ==)> {
    const file: LogFile
    const codec: Codec<B>
    var previousHash: string

    /** The remembered hash is the file's last one. */
    ghost predicate Synced()
      reads this, file
    {
      previousHash == LastHash(Lines(codec, file.text), "")
    }

    constructor (file: LogFile, codec: Codec<B>)
      ensures this.file == file && this.codec == codec
      ensures Synced()
    {
      this.file, this.codec := file, codec;
      var last := LoadPreviousHash(codec, file.text);
      previousHash := last;
    }

    method WriteRecord(body: B) returns (record: Record<B>)
      modifies this, file
      ensures record == codec.Stamp(old(previousHash), body)
      ensures previousHash == record.hash.value
      ensures file.text == old(file.text) + codec.Text(record) + "\n"
      ensures Sound(codec) && Terminated(old(file.text)) ==>
        && Terminated(file.text)
        && (!Cut(codec.Text(record)) ==> Synced())
      ensures Sound(codec) && Terminated(old(file.text)) && old(Synced())
              && Verify(codec, old(Lines(codec, file.text)), "") == Intact ==>
        (Verify(codec, Lines(codec, file.text), "") == Intact <==> !Cut(codec.fields(body)))
    {
      record := Record(body, previousHash, None);
      record := record.(hash := Some(codec.Hash(previousHash, record)));
      ghost var before := file.text;
      file.text := file.text + codec.Text(record) + "\n";
      previousHash := record.hash.value;
      if Sound(codec) && Terminated(before) {
        AppendedLines(codec, before, record);
        AppendSyncs(codec, before, old(previousHash), body);
      }
    }

    method Verified() returns (v: Verdict)
      ensures v == Verify(codec, Lines(codec, file.text), "")
    {
      v := VerifyIntegrity(codec, file.text);
    }
  }
}
