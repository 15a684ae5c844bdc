/** Reading settings from the end of a recording: the backwards chunked scan of latestRecordFields against a plain
    forward pass over the lines. */
module ReverseScan {

  type Byte = b: int | 0 <= b < 256

  const NEWLINE: Byte := 0x0a

  type Line = seq<Byte>

  /** Index of the first newline, or -1. */
  function FirstNewline(s: seq<Byte>): (i: int)
    ensures -1 <= i < |s|
    ensures i >= 0 ==> s[i] == NEWLINE
    ensures forall j | 0 <= j < (if i < 0 then |s| else i) :: s[j] != NEWLINE
  {
    if s == [] then -1
    else if s[0] == NEWLINE then 0
    else
      var i := FirstNewline(s[1..]);
      if i < 0 then -1 else i + 1
  }

  function NonEmpty(s: Line): seq<Line> { if s == [] then [] else [s] }

  /** The lines of a text that hold anything, in order (parseLines skips blank ones). */
  function Lines(s: seq<Byte>): seq<Line>
    decreases |s|
  {
    var i := FirstNewline(s);
    if i < 0 then NonEmpty(s) else NonEmpty(s[..i]) + Lines(s[i + 1..])
  }

  lemma FirstNewlineOf(s: seq<Byte>, i: nat)
    requires i < |s| && s[i] == NEWLINE && forall j | 0 <= j < i :: s[j] != NEWLINE
    ensures FirstNewline(s) == i
  {
  }

  lemma NoNewline(s: seq<Byte>)
    requires forall j | 0 <= j < |s| :: s[j] != NEWLINE
    ensures FirstNewline(s) < 0
  {
  }

  lemma {:induction false} LinesJoin(a: seq<Byte>, b: seq<Byte>)
    ensures Lines(a + [NEWLINE] + b) == Lines(a) + Lines(b)
    decreases |a|
  {
    var s := a + [NEWLINE] + b;
    var i := FirstNewline(a);
    if i < 0 {
      FirstNewlineOf(s, |a|);
      assert s[..|a|] == a && s[|a| + 1..] == b;
    } else {
      FirstNewlineOf(s, i);
      assert s[..i] == a[..i] && s[i + 1..] == a[i + 1..] + [NEWLINE] + b;
      LinesJoin(a[i + 1..], b);
    }
  }

  // ---------------------------------------------------------------- lines by their positions

  /** `text[a..b]` is a line: not empty, no newline in it, and bounded on either side by a newline or the end of the text. */
  predicate IsLine(text: seq<Byte>, a: int, b: int) {
    && 0 <= a < b <= |text|
    && (forall i | a <= i < b :: text[i] != NEWLINE)
    && (a == 0 || text[a - 1] == NEWLINE)
    && (b == |text| || text[b] == NEWLINE)
  }

  datatype Span = Span(a: int, b: int)

  /** `spans` are the positions of `lines` in `text`, in order, and no line is missing. */
  ghost predicate AreLinesOf(text: seq<Byte>, lines: seq<Line>, spans: seq<Span>) {
    && |spans| == |lines|
    && (forall k | 0 <= k < |spans| :: IsLine(text, spans[k].a, spans[k].b) && lines[k] == text[spans[k].a..spans[k].b])
    && (forall k, l | 0 <= k < l < |spans| :: spans[k].b < spans[l].a)
    && (forall a, b | IsLine(text, a, b) :: Span(a, b) in spans)
  }

  function Shifted(spans: seq<Span>, d: int): (r: seq<Span>)
    ensures |r| == |spans|
  {
    seq(|spans|, k requires 0 <= k < |spans| => Span(spans[k].a + d, spans[k].b + d))
  }

  /** Behind the newline at `i`, lines are those of the rest. */
  lemma LineBehind(text: seq<Byte>, i: nat, a: int, b: int)
    requires i < |text| && text[i] == NEWLINE
    ensures a > i ==> (IsLine(text, a, b) <==> IsLine(text[i + 1..], a - i - 1, b - i - 1))
  {
    var rest := text[i + 1..];
    if a > i && IsLine(text, a, b) {
      assert forall j | a - i - 1 <= j < b - i - 1 :: rest[j] == text[j + i + 1];
    }
    if a > i && IsLine(rest, a - i - 1, b - i - 1) {
      assert forall j | a <= j < b :: text[j] == rest[j - i - 1];
    }
  }

  /** Before the first newline there is one line or none. */
  lemma LineBefore(text: seq<Byte>, i: nat, a: int, b: int)
    requires i <= |text| && (forall j | 0 <= j < i :: text[j] != NEWLINE) && (i < |text| ==> text[i] == NEWLINE)
    ensures a <= i ==> (IsLine(text, a, b) <==> a == 0 && b == i && i > 0)
  {
  }

  lemma NoMoreLines(text: seq<Byte>, spans: seq<Span>, i: nat)
    requires FirstNewline(text) == i
    requires forall a, b | IsLine(text[i + 1..], a, b) :: Span(a, b) in spans
    ensures forall a, b | IsLine(text, a, b) :: (a == 0 && b == i && i > 0) || Span(a, b) in Shifted(spans, i + 1)
  {
    forall a, b | IsLine(text, a, b) ensures (a == 0 && b == i && i > 0) || Span(a, b) in Shifted(spans, i + 1) {
      LineBefore(text, i, a, b);
      LineBehind(text, i, a, b);
      if a > i {
        var k :| 0 <= k < |spans| && spans[k] == Span(a - i - 1, b - i - 1);
        assert Shifted(spans, i + 1)[k] == Span(a, b);
      }
    }
  }

  /** The spans of the rest, moved behind the newline at `i`. */
  lemma ShiftedLines(text: seq<Byte>, lines: seq<Line>, spans: seq<Span>, i: nat)
    requires i < |text| && text[i] == NEWLINE && AreLinesOf(text[i + 1..], lines, spans)
    ensures var moved := Shifted(spans, i + 1);
            && (forall k | 0 <= k < |moved| ::
                  moved[k].a > i && IsLine(text, moved[k].a, moved[k].b) && lines[k] == text[moved[k].a..moved[k].b])
            && (forall k, l | 0 <= k < l < |moved| :: moved[k].b < moved[l].a)
  {
    var moved := Shifted(spans, i + 1);
    forall k | 0 <= k < |moved|
      ensures moved[k].a > i && IsLine(text, moved[k].a, moved[k].b) && lines[k] == text[moved[k].a..moved[k].b]
    {
      LineBehind(text, i, moved[k].a, moved[k].b);
      assert text[i + 1..][spans[k].a..spans[k].b] == text[moved[k].a..moved[k].b];
    }
  }

  lemma OneLine(text: seq<Byte>) returns (spans: seq<Span>)
    requires FirstNewline(text) < 0
    ensures AreLinesOf(text, NonEmpty(text), spans)
  {
    spans := if text == [] then [] else [Span(0, |text|)];
    forall a, b | IsLine(text, a, b) ensures Span(a, b) in spans {
      LineBefore(text, |text|, a, b);
    }
    assert text[0..|text|] == text;
  }

  /** The lines of a text are, in order, exactly the non-empty stretches without a newline that are bounded by newlines or
      the ends of the text. */
  lemma {:induction false} LinesAreTheStretches(text: seq<Byte>) returns (spans: seq<Span>)
    ensures AreLinesOf(text, Lines(text), spans)
    decreases |text|
  {
    var i := FirstNewline(text);
    if i < 0 {
      spans := OneLine(text);
    } else {
      var rest := LinesAreTheStretches(text[i + 1..]);
      ShiftedLines(text, Lines(text[i + 1..]), rest, i);
      NoMoreLines(text, rest, i);
      LineBefore(text, i, 0, i);
      var first := if i > 0 then [Span(0, i)] else [];
      spans := first + Shifted(rest, i + 1);
      SpansJoin(text, NonEmpty(text[..i]), first, Lines(text[i + 1..]), Shifted(rest, i + 1), i);
    }
  }

  lemma InEither(first: seq<Span>, moved: seq<Span>, span: Span)
    requires span in first || span in moved
    ensures span in first + moved
  {
  }

  /** At most one span, and then others behind it. */
  lemma SpansInOrder(first: seq<Span>, moved: seq<Span>, i: nat)
    requires |first| <= 1 && (first != [] ==> first[0].b == i)
    requires forall k | 0 <= k < |moved| :: moved[k].a > i
    requires forall k, l | 0 <= k < l < |moved| :: moved[k].b < moved[l].a
    ensures forall k, l | 0 <= k < l < |first + moved| :: (first + moved)[k].b < (first + moved)[l].a
  {
    forall k, l | 0 <= k < l < |first + moved| ensures (first + moved)[k].b < (first + moved)[l].a {
      if k >= |first| { assert moved[k - |first|].b < moved[l - |first|].a; }
    }
  }

  lemma SpansJoin(text: seq<Byte>, before: seq<Line>, first: seq<Span>, behind: seq<Line>, moved: seq<Span>, i: nat)
    requires i < |text| && |moved| == |behind| && IsLine(text, 0, i) == (i > 0)
    requires before == NonEmpty(text[..i]) && first == if i > 0 then [Span(0, i)] else []
    requires forall k | 0 <= k < |moved| ::
               moved[k].a > i && IsLine(text, moved[k].a, moved[k].b) && behind[k] == text[moved[k].a..moved[k].b]
    requires forall k, l | 0 <= k < l < |moved| :: moved[k].b < moved[l].a
    requires forall a, b | IsLine(text, a, b) :: (a == 0 && b == i && i > 0) || Span(a, b) in moved
    ensures AreLinesOf(text, before + behind, first + moved)
  {
    SpansInOrder(first, moved, i);
    forall a, b | IsLine(text, a, b) ensures Span(a, b) in first + moved { InEither(first, moved, Span(a, b)); }
    var spans, lines := first + moved, before + behind;
    forall k | 0 <= k < |spans| ensures IsLine(text, spans[k].a, spans[k].b) && lines[k] == text[spans[k].a..spans[k].b] {
      if k < |first| { assert text[0..i] == text[..i]; } else { assert spans[k] == moved[k - |first|]; }
    }
  }

  // ---------------------------------------------------------------- the forward pass

  /** Per field, the value of the last line that has it. `fieldsOf` is parsing a line and picking its defined fields. */
  function Latest<K, V>(lines: seq<Line>, fieldsOf: Line -> map<K, V>): map<K, V> {
    if lines == [] then map[] else Latest(lines[..|lines| - 1], fieldsOf) + fieldsOf(lines[|lines| - 1])
  }

  lemma {:induction false} LatestJoin<K, V>(a: seq<Line>, b: seq<Line>, fieldsOf: Line -> map<K, V>)
    ensures Latest(a + b, fieldsOf) == Latest(a, fieldsOf) + Latest(b, fieldsOf)
  {
    if b == [] {
      assert a + b == a;
    } else {
      var n := |b| - 1;
      assert (a + b)[..|a + b| - 1] == a + b[..n];
      LatestJoin(a, b[..n], fieldsOf);
    }
  }

  /** `lines[j]` is the last line that has field `k`. */
  ghost predicate IsLast<K, V>(lines: seq<Line>, fieldsOf: Line -> map<K, V>, k: K, j: nat) {
    && j < |lines| && k in fieldsOf(lines[j])
    && forall l | j < l < |lines| :: k !in fieldsOf(lines[l])
  }

  /** A field is known exactly if a line has it, with the value of the last line that does. */
  lemma {:induction false} LatestIsLast<K, V>(lines: seq<Line>, fieldsOf: Line -> map<K, V>, k: K) returns (j: nat)
    ensures if k in Latest(lines, fieldsOf) then IsLast(lines, fieldsOf, k, j) && Latest(lines, fieldsOf)[k] == fieldsOf(lines[j])[k]
            else forall l | 0 <= l < |lines| :: k !in fieldsOf(lines[l])
  {
    j := 0;
    if lines != [] {
      var n := |lines| - 1;
      j := LatestIsLast(lines[..n], fieldsOf, k);
      if k in fieldsOf(lines[n]) { j := n; }
    }
  }

  /** The lines that lie completely in `file[from..]`: all of them from the start of the file, otherwise those after the
      first newline. */
  function CompleteLines(file: seq<Byte>, from: nat): seq<Line>
    requires from <= |file|
  {
    if from == 0 then Lines(file)
    else
      var i := FirstNewline(file[from..]);
      if i < 0 then [] else Lines(file[from + i + 1..])
  }

  /** Where the scan stops if nothing ends it early. */
  function ScanEnd(size: nat, end: nat, chunk: nat, maxScan: nat): (stop: nat)
    requires chunk > 0 && end <= size
    ensures stop <= end
    decreases end
  {
    if end > 0 && size - end < maxScan then ScanEnd(size, if end < chunk then 0 else end - chunk, chunk, maxScan) else end
  }

  /** Where the complete lines of `file[from..]` begin: after the file if there is no newline to begin at. */
  function FirstComplete(file: seq<Byte>, from: nat): (k: nat)
    requires from <= |file|
    ensures k <= |file| + 1
  {
    if from == 0 then 0
    else
      var i := FirstNewline(file[from..]);
      if i < 0 then |file| + 1 else from + i + 1
  }

  lemma LaterStart(file: seq<Byte>, a: nat, b: nat)
    requires a <= b <= |file|
    ensures FirstComplete(file, a) <= FirstComplete(file, b)
    ensures 0 < FirstComplete(file, b) <= |file| ==> file[FirstComplete(file, b) - 1] == NEWLINE
  {
    var k := FirstComplete(file, b);
    if 0 < k <= |file| && 0 < a {
      assert file[b..][k - 1 - b] == NEWLINE;
      assert file[a..][k - 1 - a] == NEWLINE;
    }
  }

  /** Scanning further back only puts more lines in front. */
  lemma EarlierLinesInFront(file: seq<Byte>, a: nat, b: nat) returns (front: seq<Line>)
    requires a <= b <= |file|
    ensures CompleteLines(file, a) == front + CompleteLines(file, b)
  {
    LaterStart(file, a, b);
    var from, next := FirstComplete(file, a), FirstComplete(file, b);
    if from == next {
      front := [];
    } else if next > |file| {
      front := CompleteLines(file, a);
    } else {
      front := Lines(file[from..next - 1]);
      assert file[from..] == file[from..next - 1] + [NEWLINE] + file[next..];
      LinesJoin(file[from..next - 1], file[next..]);
      assert file[0..] == file;
    }
  }

  // ---------------------------------------------------------------- the scan

  lemma OlderLineUnderneath<K, V>(line: Line, newer: seq<Line>, known: map<K, V>, fieldsOf: Line -> map<K, V>)
    ensures fieldsOf(line) + (Latest(newer, fieldsOf) + known) == Latest([line] + newer, fieldsOf) + known
  {
    LatestJoin([line], newer, fieldsOf);
    assert Latest([line], fieldsOf) == fieldsOf(line);
    var fields, rest := fieldsOf(line), Latest(newer, fieldsOf);
    assert Latest([line] + newer, fieldsOf) == fields + rest;
    assert fields + (rest + known) == (fields + rest) + known;
  }

  /** Lines are taken newest first, and older values never replace what is already known. */
  method Absorb<K, V>(lines: seq<Line>, known: map<K, V>, fieldsOf: Line -> map<K, V>) returns (out: map<K, V>)
    ensures out == Latest(lines, fieldsOf) + known
  {
    out := known;
    var i := |lines|;
    assert lines[i..] == [];
    while i > 0
      invariant 0 <= i <= |lines|
      invariant out == Latest(lines[i..], fieldsOf) + known
    {
      i := i - 1;
      OlderLineUnderneath(lines[i], lines[i + 1..], known, fieldsOf);
      assert [lines[i]] + lines[i + 1..] == lines[i..];
      out := fieldsOf(lines[i]) + out;
    }
    assert lines[0..] == lines;
  }

  /** How far the scan has got: the text from `end` on is the unfinished line `carry` followed (when a newline was seen)
      by a newline and the processed lines, which begin at `done`. */
  ghost predicate Scanned(file: seq<Byte>, end: nat, carry: seq<Byte>, done: nat, lines: seq<Line>) {
    && end <= |file| && end + |carry| <= |file|
    && carry == file[end..end + |carry|]
    && done == end + |carry| + 1
    && (done <= |file| ==> file[done - 1] == NEWLINE && lines == Lines(file[done..]))
    && (done > |file| ==> lines == [])
    && FirstNewline(carry) < 0
  }

  lemma ScannedIsComplete(file: seq<Byte>, end: nat, carry: seq<Byte>, done: nat, lines: seq<Line>)
    requires Scanned(file, end, carry, done, lines) && end > 0
    ensures lines == CompleteLines(file, end)
  {
    if done <= |file| {
      assert file[end..][done - 1 - end] == NEWLINE;
      FirstNewlineOf(file[end..], done - 1 - end);
    } else {
      assert carry == file[end..];
    }
  }

  lemma PartIsComplete(file: seq<Byte>, end: nat, carry: seq<Byte>, done: nat, lines: seq<Line>)
    requires end <= |file| && (end > 0 ==> Scanned(file, end, carry, done, lines)) && (end == 0 ==> lines == Lines(file))
    ensures lines == CompleteLines(file, end)
  {
    if end > 0 { ScannedIsComplete(file, end, carry, done, lines); }
  }

  /** The lines read from `start` on, given that the text from `done` on has been processed. */
  lemma BlockJoins(file: seq<Byte>, block: seq<Byte>, from: nat, done: nat, lines: seq<Line>)
    requires from < done <= |file| + 1 && block == file[from..done - 1]
    requires done <= |file| ==> file[done - 1] == NEWLINE && lines == Lines(file[done..])
    requires done > |file| ==> lines == []
    ensures Lines(file[from..]) == Lines(block) + lines
  {
    if done <= |file| {
      assert file[from..] == block + [NEWLINE] + file[done..];
      LinesJoin(block, file[done..]);
    } else {
      assert file[from..] == block;
    }
  }

  lemma CarriedBytes(
    file: seq<Byte>, start: nat, block: seq<Byte>, i: nat, carry: seq<Byte>, rest: seq<Byte>, from: nat, done: nat)
    requires start < done <= |file| + 1 && block == file[start..done - 1] && i < |block| && block[i] == NEWLINE
    requires carry == block[..i] && rest == block[i + 1..] && from == start + i + 1
    ensures from == start + |carry| + 1 <= |file| && file[from - 1] == NEWLINE && from <= done - 1
    ensures carry == file[start..start + |carry|] && rest == file[from..done - 1]
  {
    assert file[from - 1] == block[i];
  }

  lemma ScannedUpTo(file: seq<Byte>, start: nat, carry: seq<Byte>, from: nat, lines: seq<Line>)
    requires from == start + |carry| + 1 <= |file| && file[from - 1] == NEWLINE
    requires carry == file[start..start + |carry|] && FirstNewline(carry) < 0 && lines == Lines(file[from..])
    ensures Scanned(file, start, carry, from, lines)
  {
  }

  /** The first newline of the text read so far, at `i`, ends the new unfinished line. */
  lemma CarriedUpToNewline(
    file: seq<Byte>, start: nat, block: seq<Byte>, i: nat, carry: seq<Byte>, rest: seq<Byte>, from: nat, done: nat,
    lines: seq<Line>, joined: seq<Line>)
    requires start < done <= |file| + 1 && block == file[start..done - 1]
    requires i < |block| && block[i] == NEWLINE && forall j | 0 <= j < i :: block[j] != NEWLINE
    requires carry == block[..i] && rest == block[i + 1..] && from == start + i + 1
    requires done <= |file| ==> file[done - 1] == NEWLINE && lines == Lines(file[done..])
    requires done > |file| ==> lines == []
    requires joined == Lines(rest) + lines
    ensures Scanned(file, start, carry, from, joined)
  {
    CarriedBytes(file, start, block, i, carry, rest, from, done);
    NoNewline(carry);
    BlockJoins(file, rest, from, done, lines);
    ScannedUpTo(file, start, carry, from, joined);
  }

  /** A chunk joined with the unfinished line behind it reaches back to `start` without a gap. */
  lemma BlockReachesBack(file: seq<Byte>, start: nat, end: nat, carry: seq<Byte>, done: nat, lines: seq<Line>)
    requires start < end && Scanned(file, end, carry, done, lines)
    ensures start < done <= |file| + 1 && file[start..end] + carry == file[start..done - 1]
  {
  }

  /** Without a newline all of it is still one unfinished line. */
  lemma AllCarried(file: seq<Byte>, start: nat, block: seq<Byte>, done: nat, lines: seq<Line>)
    requires start < done <= |file| + 1 && block == file[start..done - 1] && FirstNewline(block) < 0
    requires done <= |file| ==> file[done - 1] == NEWLINE && lines == Lines(file[done..])
    requires done > |file| ==> lines == []
    ensures Scanned(file, start, block, done, Lines([]) + lines)
  {
    assert Lines([]) + lines == lines;
    assert |block| == done - 1 - start;
  }

  lemma FirstBlockCompletes(file: seq<Byte>, block: seq<Byte>, done: nat, lines: seq<Line>)
    requires 0 < done <= |file| + 1 && block == file[0..done - 1]
    requires done <= |file| ==> file[done - 1] == NEWLINE && lines == Lines(file[done..])
    requires done > |file| ==> lines == []
    ensures Lines(block) + lines == Lines(file)
  {
    BlockJoins(file, block, 0, done, lines);
    assert file[0..] == file;
  }

  /** One chunk, joined with the unfinished line behind it: its complete lines are taken, its first part is carried. */
  method TakeBlock(
    file: seq<Byte>, start: nat, end: nat, carry: seq<Byte>, ghost done: nat, ghost lines: seq<Line>)
    returns (block: seq<Byte>, carry': seq<Byte>, ghost done': nat)
    requires start < end && Scanned(file, end, carry, done, lines)
    ensures start > 0 ==> Scanned(file, start, carry', done', Lines(block) + lines)
    ensures start == 0 ==> Lines(block) + lines == Lines(file)
  {
    block := file[start..end] + carry;
    BlockReachesBack(file, start, end, carry, done, lines);
    if start > 0 {
      var firstNewline := FirstNewline(block);
      if firstNewline < 0 {
        AllCarried(file, start, block, done, lines);
        carry', block, done' := block, [], done;
      } else {
        ghost var whole := block;
        carry', block, done' := block[..firstNewline], block[firstNewline + 1..], start + firstNewline + 1;
        CarriedUpToNewline(file, start, whole, firstNewline, carry', block, done', done, lines, Lines(block) + lines);
      }
    } else {
      carry', done' := [], 0;
      FirstBlockCompletes(file, block, done, lines);
    }
  }

  /** Values of the last lines are the latest of all lines. */
  lemma TailIsLatest<K, V>(file: seq<Byte>, from: nat, stop: nat, fieldsOf: Line -> map<K, V>)
    requires from <= stop <= |file|
    ensures var tail := Latest(CompleteLines(file, stop), fieldsOf);
            var all := Latest(CompleteLines(file, from), fieldsOf);
            forall k | k in tail :: k in all && all[k] == tail[k]
  {
    var front := EarlierLinesInFront(file, from, stop);
    LatestJoin(front, CompleteLines(file, stop), fieldsOf);
  }

  /** The line at `a..b` is the last one of the file that has field `k`. */
  ghost predicate LatestAt<K, V>(file: seq<Byte>, fieldsOf: Line -> map<K, V>, k: K, a: int, b: int) {
    && IsLine(file, a, b) && k in fieldsOf(file[a..b])
    && forall c, d | IsLine(file, c, d) && c > a :: k !in fieldsOf(file[c..d])
  }

  lemma LineHasIndex(file: seq<Byte>, lines: seq<Line>, spans: seq<Span>, a: int, b: int) returns (l: nat)
    requires AreLinesOf(file, lines, spans) && IsLine(file, a, b)
    ensures l < |lines| == |spans| && spans[l] == Span(a, b) && lines[l] == file[a..b]
  {
    assert Span(a, b) in spans;
    l :| l < |spans| && spans[l] == Span(a, b);
  }

  lemma LastByPosition<K, V>(
    file: seq<Byte>, lines: seq<Line>, spans: seq<Span>, fieldsOf: Line -> map<K, V>, k: K, j: nat)
    requires AreLinesOf(file, lines, spans) && IsLast(lines, fieldsOf, k, j)
    ensures LatestAt(file, fieldsOf, k, spans[j].a, spans[j].b) && lines[j] == file[spans[j].a..spans[j].b]
  {
    forall c, d | IsLine(file, c, d) && c > spans[j].a ensures k !in fieldsOf(file[c..d]) {
      var l := LineHasIndex(file, lines, spans, c, d);
      assert l > j;
    }
  }

  lemma LatestIsAt<K, V>(file: seq<Byte>, fieldsOf: Line -> map<K, V>, k: K) returns (a: int, b: int)
    requires k in Latest(Lines(file), fieldsOf)
    ensures LatestAt(file, fieldsOf, k, a, b) && fieldsOf(file[a..b])[k] == Latest(Lines(file), fieldsOf)[k]
  {
    var lines := Lines(file);
    var spans := LinesAreTheStretches(file);
    var j := LatestIsLast(lines, fieldsOf, k);
    LastByPosition(file, lines, spans, fieldsOf, k, j);
    a, b := spans[j].a, spans[j].b;
  }

  /** A line that begins after a newline at or behind `from` lies behind the first newline there. */
  lemma LineBehindStart(file: seq<Byte>, from: nat, a: int, b: int)
    requires 0 < from <= |file| && IsLine(file, a, b) && a > from
    ensures 0 < FirstComplete(file, from) <= a && file[FirstComplete(file, from) - 1] == NEWLINE
  {
    assert file[from..][a - 1 - from] == NEWLINE;
  }

  lemma LineOfRest<K, V>(text: seq<Byte>, a: int, b: int, fieldsOf: Line -> map<K, V>, k: K)
    requires IsLine(text, a, b) && k in fieldsOf(text[a..b])
    ensures k in Latest(Lines(text), fieldsOf)
  {
    var lines := Lines(text);
    var spans := LinesAreTheStretches(text);
    var l := LineHasIndex(text, lines, spans, a, b);
    var j := LatestIsLast(lines, fieldsOf, k);
  }

  lemma LineIsRead<K, V>(file: seq<Byte>, from: nat, a: int, b: int, fieldsOf: Line -> map<K, V>, k: K)
    requires from <= |file| && IsLine(file, a, b) && (from == 0 || a > from) && k in fieldsOf(file[a..b])
    ensures k in Latest(CompleteLines(file, from), fieldsOf)
  {
    if from == 0 {
      LineOfRest(file, a, b, fieldsOf, k);
    } else {
      LineBehindStart(file, from, a, b);
      var m := FirstComplete(file, from);
      LineBehind(file, m - 1, a, b);
      assert file[m..][a - m..b - m] == file[a..b];
      LineOfRest(file[m..], a - m, b - m, fieldsOf, k);
    }
  }

  /** Everything, or at least `maxScan` bytes and less than a chunk more. */
  lemma ScanReaches(size: nat, end: nat, chunk: nat, maxScan: nat)
    requires chunk > 0 && end <= size
    ensures var stop := ScanEnd(size, end, chunk, maxScan);
            && (stop == 0 || size - stop >= maxScan) && (stop < end ==> size - stop < maxScan + chunk)
    decreases end
  {
    if end > 0 && size - end < maxScan { ScanReaches(size, if end < chunk then 0 else end - chunk, chunk, maxScan); }
  }

  /** What the scan owes its caller: every field it returns has the value of the last line of the whole file that has it,
      and every required field is returned that occurs in a complete line of the part the limit allows. */
  ghost predicate Finds<K, V>(
    file: seq<Byte>, limit: nat, required: set<K>, fieldsOf: Line -> map<K, V>, out: map<K, V>)
  {
    && (forall k | k in out :: exists a, b :: LatestAt(file, fieldsOf, k, a, b) && out[k] == fieldsOf(file[a..b])[k])
    && (forall k, a, b | k in required && IsLine(file, a, b) && k in fieldsOf(file[a..b]) ::
          limit == 0 || a > limit ==> k in out)
  }

  /** `out` is the latest of the lines from `stop` on, and has all required fields that are known from `limit` on. */
  lemma ScanFinds<K, V>(
    file: seq<Byte>, limit: nat, stop: nat, required: set<K>, fieldsOf: Line -> map<K, V>, out: map<K, V>)
    requires limit <= stop <= |file| && out == Latest(CompleteLines(file, stop), fieldsOf)
    requires stop == limit || required <= out.Keys
    ensures Finds(file, limit, required, fieldsOf, out)
  {
    TailIsLatest(file, 0, stop, fieldsOf);
    forall k | k in out ensures exists a, b :: LatestAt(file, fieldsOf, k, a, b) && out[k] == fieldsOf(file[a..b])[k] {
      var a, b := LatestIsAt(file, fieldsOf, k);
    }
    forall k, a, b | k in required && IsLine(file, a, b) && k in fieldsOf(file[a..b])
      ensures limit == 0 || a > limit ==> k in out
    {
      if stop == limit && (limit == 0 || a > limit) { LineIsRead(file, limit, a, b, fieldsOf, k); }
    }
  }

  /** The state of the scan: everything from `end` on has been read, and `out` is the latest of its complete lines. */
  ghost predicate Progress<K, V>(
    file: seq<Byte>, end: nat, carry: seq<Byte>, done: nat, lines: seq<Line>, fieldsOf: Line -> map<K, V>, out: map<K, V>)
  {
    && end <= |file| && (end > 0 ==> Scanned(file, end, carry, done, lines)) && (end == 0 ==> lines == Lines(file))
    && out == Latest(lines, fieldsOf)
  }

  /** Having read the file from `at` on, the scan still has something to look for (it always reads one chunk). */
  ghost predicate StillLooks<K, V>(file: seq<Byte>, at: nat, required: set<K>, fieldsOf: Line -> map<K, V>)
    requires at <= |file|
  {
    at == |file| || exists k | k in required :: k !in Latest(CompleteLines(file, at), fieldsOf)
  }

  /** The chunk at which the scan stopped was needed. */
  ghost predicate EndsInTime<K, V>(file: seq<Byte>, stop: nat, chunk: nat, required: set<K>, fieldsOf: Line -> map<K, V>) {
    stop < |file| ==> exists at | stop < at <= |file| && at <= stop + chunk :: StillLooks(file, at, required, fieldsOf)
  }

  lemma GoesOnLooking<K, V>(
    file: seq<Byte>, end: nat, carry: seq<Byte>, done: nat, lines: seq<Line>, fieldsOf: Line -> map<K, V>, out: map<K, V>,
    required: set<K>)
    requires Progress(file, end, carry, done, lines, fieldsOf, out) && !(required <= out.Keys)
    ensures StillLooks(file, end, required, fieldsOf)
  {
    PartIsComplete(file, end, carry, done, lines);
    var k :| k in required && k !in out.Keys;
  }

  /** One chunk of the scan. */
  method ScanChunk<K, V>(
    file: seq<Byte>, start: nat, end: nat, carry: seq<Byte>, known: map<K, V>, fieldsOf: Line -> map<K, V>,
    ghost done: nat, ghost lines: seq<Line>)
    returns (carry': seq<Byte>, out: map<K, V>, ghost done': nat, ghost lines': seq<Line>)
    requires start < end && Progress(file, end, carry, done, lines, fieldsOf, known)
    ensures Progress(file, start, carry', done', lines', fieldsOf, out)
  {
    var block;
    block, carry', done' := TakeBlock(file, start, end, carry, done, lines);
    var records := Lines(block);
    out := Absorb(records, known, fieldsOf);
    LatestJoin(records, lines, fieldsOf);
    lines' := records + lines;
  }

  /** The backwards scan. Each complete line of the part it read is processed exactly once (`lines`); every field it
      returns has the value of the last line of the whole file that has it; stopping early never loses a required field:
      one that occurs in a complete line of the part the limit allows is returned; and no chunk is read once all are known. */
  method LatestRecordFields<K(==), V>(
    file: seq<Byte>, chunk: nat, maxScan: nat, required: set<K>, fieldsOf: Line -> map<K, V>)
    returns (out: map<K, V>, ghost stop: nat, ghost lines: seq<Line>)
    requires chunk > 0
    ensures ScanEnd(|file|, |file|, chunk, maxScan) <= stop <= |file|
    ensures lines == CompleteLines(file, stop) && out == Latest(lines, fieldsOf)
    ensures Finds(file, ScanEnd(|file|, |file|, chunk, maxScan), required, fieldsOf, out)
    ensures EndsInTime(file, stop, chunk, required, fieldsOf)
  {
    out := map[];
    var end: nat := |file|;
    var carry: seq<Byte> := [];
    lines := [];
    ghost var done: nat := |file| + 1;
    ghost var full := ScanEnd(|file|, |file|, chunk, maxScan);
    while end > 0 && |file| - end < maxScan
      invariant Progress(file, end, carry, done, lines, fieldsOf, out) && full == ScanEnd(|file|, end, chunk, maxScan)
      invariant StillLooks(file, end, required, fieldsOf) && EndsInTime(file, end, chunk, required, fieldsOf)
      decreases end
    {
      var start := if end < chunk then 0 else end - chunk;
      carry, out, done, lines := ScanChunk(file, start, end, carry, out, fieldsOf, done, lines);
      end := start;
      if required <= out.Keys {
        break;
      }
      GoesOnLooking(file, end, carry, done, lines, fieldsOf, out, required);
    }
    stop := end;
    PartIsComplete(file, end, carry, done, lines);
    ScanFinds(file, full, stop, required, fieldsOf, out);
  }
}
