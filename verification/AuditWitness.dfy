/** A codec that meets everything the audit log takes for granted of JSON and of its digest. */
module AuditWitness {
  import opened Common
  import opened TextLines
  import opened AuditChain

  // ----- escaping of quoted strings

  predicate Special(ch: char) {
    ch == '"' || ch == '\\' || LineBoundary(ch)
  }

  /** The letter that stands for a special character after a backslash. */
  function Letter(ch: char): char {
    if ch == '"' then 'A' else if ch == '\\' then 'B'
    else if ch == '\n' then 'C' else if ch == '\U{000B}' then 'D' else if ch == '\U{000C}' then 'E'
    else if ch == '\r' then 'F' else if ch == '\U{001C}' then 'G' else if ch == '\U{001D}' then 'H'
    else if ch == '\U{001E}' then 'I' else if ch == '\U{0085}' then 'J' else if ch == '\U{2028}' then 'K'
    else 'L'
  }

  lemma LetterInjective(a: char, b: char)
    requires Special(a) && Special(b) && Letter(a) == Letter(b)
    ensures a == b
  {
  }

  function Escape(s: string): string {
    if s == "" then ""
    else (if Special(s[0]) then ['\\', Letter(s[0])] else [s[0]]) + Escape(s[1..])
  }

  lemma {:induction false} EscapePlain(s: string)
    ensures forall i :: 0 <= i < |Escape(s)| ==> Escape(s)[i] != '"' && !LineBoundary(Escape(s)[i])
  {
    if s != "" { EscapePlain(s[1..]); }
  }

  lemma {:induction false} EscapeHex(s: string)
    requires Hex(s)
    ensures Escape(s) == s
  {
    if s != "" {
      assert !Special(s[0]);
      EscapeHex(s[1..]);
    }
  }

  lemma {:induction false} EscapeInjective(a: string, b: string)
    requires Escape(a) == Escape(b)
    ensures a == b
  {
    if a != "" && b != "" {
      assert a[0] == b[0] by { EscapeHead(a, b); }
      var n := if Special(a[0]) then 2 else 1;
      assert Escape(a)[n..] == Escape(a[1..]) && Escape(b)[n..] == Escape(b[1..]);
      EscapeInjective(a[1..], b[1..]);
    }
  }

  lemma EscapeHead(a: string, b: string)
    requires a != "" && b != "" && Escape(a) == Escape(b)
    ensures a[0] == b[0]
  {
    assert Escape(a)[0] == if Special(a[0]) then '\\' else a[0];
    assert Escape(b)[0] == if Special(b[0]) then '\\' else b[0];
    if Special(a[0]) && Special(b[0]) {
      assert Escape(a)[1] == Letter(a[0]) && Escape(b)[1] == Letter(b[0]);
      LetterInjective(a[0], b[0]);
    }
  }

  // ----- the codec

  function Quoted(s: string): string {
    "\"" + Escape(s) + "\""
  }

  /** A body is a flag; the raised one is written as a line separator. */
  function Fields(body: bool): string {
    if body then "\U{2028}" else "x"
  }

  /** The codec before it can read. */
  ghost function Mute(): Codec<bool> {
    Codec(
      x => "0",
      (b: bool, p: string) => (if b then "1" else "0") + p,
      s => if s == "" then (false, "") else (s[0] == '1', s[1..]),
      Fields,
      Quoted,
      s => Garbage)
  }

  ghost predicate Writes(r: Record<bool>, text: string) {
    Mute().Text(r) == text
  }

  /** It reads exactly the texts it writes. */
  ghost function Reading(text: string): Line<bool> {
    if r: Record<bool> :| Writes(r, text) then Entry(r) else Garbage
  }

  ghost function Witness(): Codec<bool> {
    Mute().(parse := text => Reading(text))
  }

  // ----- what it writes determines what was written

  lemma Unquote(a: string, s: string, b: string, t: string)
    requires Quoted(a) + s == Quoted(b) + t
    ensures a == b && s == t
  {
    var x, y := Escape(a), Escape(b);
    EscapePlain(a);
    EscapePlain(b);
    assert (Quoted(a) + s)[1..] == x + ['"'] + s && (Quoted(b) + t)[1..] == y + ['"'] + t;
    FirstSeparator('"', x, s, y, t);
    EscapeInjective(a, b);
  }

  const PREVIOUS := ", \"previous_hash\": "
  const HASH := ", \"hash\": "

  /** What follows the previous hash. */
  function Tail(hash: Option<string>): string {
    (if hash.Some? then HASH + Quoted(hash.value) else "") + "}"
  }

  function Chaining(r: Record<bool>): string {
    PREVIOUS + (Quoted(r.previousHash) + Tail(r.hash))
  }

  lemma TextParts(r: Record<bool>)
    ensures Mute().Text(r) == "{" + Fields(r.body) + Chaining(r)
    ensures Witness().Text(r) == Mute().Text(r)
  {
    var previous := Quoted(r.previousHash);
    var hash := if r.hash.Some? then HASH + Quoted(r.hash.value) else "";
    Regroup(PREVIOUS + previous, hash, "}");
    Regroup(PREVIOUS, previous, hash + "}");
    assert Mute().ChainingText(r) == PREVIOUS + previous + hash + "}";
  }

  lemma TailInjective(a: Option<string>, b: Option<string>)
    requires Tail(a) == Tail(b)
    ensures a == b
  {
    assert Tail(a)[0] == (if a.Some? then ',' else '}') && Tail(b)[0] == if b.Some? then ',' else '}';
    if a.Some? && b.Some? {
      assert Tail(a)[|HASH|..] == Quoted(a.value) + "}" && Tail(b)[|HASH|..] == Quoted(b.value) + "}";
      Unquote(a.value, "}", b.value, "}");
    }
  }

  lemma ChainingInjective(a: Record<bool>, b: Record<bool>)
    requires Chaining(a) == Chaining(b)
    ensures a.previousHash == b.previousHash && a.hash == b.hash
  {
    var n := |PREVIOUS|;
    assert Chaining(a)[n..] == Quoted(a.previousHash) + Tail(a.hash);
    assert Chaining(b)[n..] == Quoted(b.previousHash) + Tail(b.hash);
    Unquote(a.previousHash, Tail(a.hash), b.previousHash, Tail(b.hash));
    TailInjective(a.hash, b.hash);
  }

  lemma TextInjective(a: Record<bool>, b: Record<bool>)
    requires Mute().Text(a) == Mute().Text(b)
    ensures a == b
  {
    TextParts(a);
    TextParts(b);
    SameParts(Fields(a.body), Chaining(a), Fields(b.body), Chaining(b));
    ChainingInjective(a, b);
  }

  lemma SameParts(f: string, s: string, g: string, t: string)
    requires |f| == |g| == 1 && "{" + f + s == "{" + g + t
    ensures f == g && s == t
  {
    var whole := "{" + f + s;
    assert whole[1] == f[0] && whole[1] == g[0];
    assert whole[2..] == s && whole[2..] == t;
  }

  lemma ReadsBack(r: Record<bool>)
    ensures Reading(Mute().Text(r)) == Entry(r)
  {
    assert Writes(r, Mute().Text(r));
    forall q: Record<bool> | Writes(q, Mute().Text(r)) ensures q == r {
      TextInjective(q, r);
    }
  }

  /** A piece that is too short, or does not open an object, is no record. */
  lemma NotWritten(text: string)
    requires |text| <= 1 || text[0] != '{'
    ensures Reading(text) == Garbage
  {
    forall r: Record<bool> ensures !Writes(r, text) {
      TextParts(r);
    }
  }

  // ----- a cut record

  lemma QuotedWhole(s: string)
    ensures !Cut(Quoted(s))
  {
    EscapePlain(s);
    var quoted := Quoted(s);
    assert forall i :: 0 < i < |quoted| - 1 ==> quoted[i] == Escape(s)[i - 1];
  }

  lemma ChainingWhole(r: Record<bool>)
    ensures !Cut(Chaining(r)) && Chaining(r)[0] == ','
  {
    QuotedWhole(r.previousHash);
    if r.hash.Some? {
      QuotedWhole(r.hash.value);
      CutConcat(HASH, Quoted(r.hash.value));
      CutConcat(HASH + Quoted(r.hash.value), "}");
    }
    CutConcat(Quoted(r.previousHash), Tail(r.hash));
    CutConcat(PREVIOUS, Quoted(r.previousHash) + Tail(r.hash));
  }

  lemma OnlyRaisedCut(r: Record<bool>)
    ensures Cut(Mute().Text(r)) ==> r.body
  {
    TextParts(r);
    ChainingWhole(r);
    CutConcat("{" + Fields(r.body), Chaining(r));
    assert !Cut("{x");
  }

  /** The text of a raised flag is read as an opened object and a rest, neither of which is a record. */
  lemma RaisedShatters(r: Record<bool>)
    requires r.body
    ensures Shattered(Lines(Witness(), Mute().Text(r)))
  {
    TextParts(r);
    ChainingWhole(r);
    RaisedSplits(Chaining(r));
    NotWritten("{");
    NotWritten(Chaining(r));
  }

  lemma RaisedSplits(rest: string)
    requires !Cut(rest) && rest != ""
    ensures SplitLines("{" + Fields(true) + rest) == ["{", rest]
  {
    var start := "{" + Fields(true);
    assert start[..1] == "{" && start[1] == '\U{2028}';
    SplitWhole("{");
    SplitConcat(start, rest);
    SplitWhole(rest);
  }

  lemma WitnessWrites(c: Codec<bool>)
    requires c == Witness()
    ensures forall h: string :: Hex(h) ==> c.quote(h) == "\"" + h + "\""
    ensures forall b: bool, p: string :: c.uncanon(c.canon(b, p)) == (b, p)
  {
    forall h: string | Hex(h) ensures c.quote(h) == "\"" + h + "\"" {
      EscapeHex(h);
    }
    forall b: bool, p: string ensures c.uncanon(c.canon(b, p)) == (b, p) {
      assert ((if b then "1" else "0") + p)[1..] == p;
    }
  }

  lemma WitnessReads(c: Codec<bool>, r: Record<bool>)
    requires c == Witness()
    ensures c.parse(c.Text(r)) == Entry(r)
    ensures Cut(c.Text(r)) ==> Shattered(Lines(c, c.Text(r)))
  {
    TextParts(r);
    ReadsBack(r);
    OnlyRaisedCut(r);
    if r.body { RaisedShatters(r); }
  }

  /** The assumptions on the audit log's codec can hold together, with records that are cut among them. */
  lemma SoundCodecExists()
    ensures exists c: Codec<bool> :: Sound(c) && Cut(c.fields(true))
  {
    var c := Witness();
    WitnessWrites(c);
    forall r: Record<bool>
      ensures c.parse(c.Text(r)) == Entry(r) && (Cut(c.Text(r)) ==> Shattered(Lines(c, c.Text(r))))
    {
      WitnessReads(c, r);
    }
    assert Cut(Fields(true)) by { assert LineBoundary(Fields(true)[0]); }
  }
}
