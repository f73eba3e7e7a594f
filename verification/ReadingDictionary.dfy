/** The hotword reading dictionary: a sorted text of `key TAB values` lines, indexed by byte offsets and searched by bisection. */
module ReadingDictionary {
  import opened Wrappers

  type Byte = b: int | 0 <= b < 256

  /** A text, as its UTF-8 bytes: the separators below are single bytes, and the order of strings is that of their bytes. */
  type Text = seq<Byte>

  const LF: Byte := 10
  const TAB: Byte := 9
  const OFFSETS := 0x1_0000_0000

  datatype Failure = InvalidRow | NotSorted | TooLarge

  datatype Pair = Pair(before: Text, after: Text)

  /** The place of the first `c`, or the length. */
  function Until(s: Text, c: Byte): (n: nat)
    ensures n <= |s| && (forall k | 0 <= k < n :: s[k] != c) && (n < |s| ==> s[n] == c)
  {
    if s == [] || s[0] == c then 0 else 1 + Until(s[1..], c)
  }

  /** Both sides of the first `c`. */
  function SplitOnce(s: Text, c: Byte): Option<Pair> {
    var n := Until(s, c);
    if n < |s| then Some(Pair(s[..n], s[n + 1..])) else None
  }

  /** All pieces between separators. */
  function Split(s: Text, c: Byte): (pieces: seq<Text>)
    ensures pieces != [] && forall i | 0 <= i < |pieces| :: c !in pieces[i]
  {
    var n := Until(s, c);
    if n < |s| then [s[..n]] + Split(s[n + 1..], c) else [s]
  }

  function Join(pieces: seq<Text>, c: Byte): Text
    requires pieces != []
  {
    if |pieces| == 1 then pieces[0] else pieces[0] + [c] + Join(pieces[1..], c)
  }

  /** Splitting loses nothing. */
  lemma {:induction false} SplitJoins(s: Text, c: Byte)
    ensures Join(Split(s, c), c) == s
  {
    var n := Until(s, c);
    if n < |s| {
      SplitJoins(s[n + 1..], c);
      assert Split(s, c)[1..] == Split(s[n + 1..], c);
      assert s == s[..n] + [c] + s[n + 1..];
    }
  }

  /** The lines of a text; a final terminator opens no further line. */
  function Lines(text: Text): seq<Text> {
    if text == [] then [] else
    var n := Until(text, LF);
    [text[..n]] + if n < |text| then Lines(text[n + 1..]) else []
  }

  /** The order of strings: byte by byte, a proper prefix first. */
  predicate Less(a: Text, b: Text) {
    b != [] && (a == [] || a[0] < b[0] || (a[0] == b[0] && Less(a[1..], b[1..])))
  }

  lemma {:induction false} LessIsTransitive(a: Text, b: Text, c: Text)
    requires Less(a, b) && Less(b, c)
    ensures Less(a, c)
  {
    if a != [] && a[0] == b[0] && b[0] == c[0] { LessIsTransitive(a[1..], b[1..], c[1..]); }
  }

  lemma {:induction false} LessIsTotal(a: Text, b: Text)
    ensures a != b <==> Less(a, b) || Less(b, a)
    ensures !(Less(a, b) && Less(b, a))
  {
    if a != [] && b != [] {
      LessIsTotal(a[1..], b[1..]);
      assert a == [a[0]] + a[1..] && b == [b[0]] + b[1..];
    }
  }

  /** `a` comes first where the two part: it ends there, or has the smaller byte. */
  lemma {:induction false} LessMeans(a: Text, b: Text)
    ensures Less(a, b) <==> exists k :: 0 <= k <= |a| && k < |b| && a[..k] == b[..k] && (k == |a| || a[k] < b[k])
  {
    if a != [] && b != [] && a[0] == b[0] {
      LessMeans(a[1..], b[1..]);
      if k :| 0 <= k <= |a[1..]| && k < |b[1..]| && a[1..][..k] == b[1..][..k] && (k == |a[1..]| || a[1..][k] < b[1..][k]) {
        assert a[..k + 1] == [a[0]] + a[1..][..k] && b[..k + 1] == [b[0]] + b[1..][..k];
      }
      if k :| 0 <= k <= |a| && k < |b| && a[..k] == b[..k] && (k == |a| || a[k] < b[k]) {
        assert k > 0;
        assert a[1..][..k - 1] == a[..k][1..] && b[1..][..k - 1] == b[..k][1..];
      }
    } else if b != [] {
      assert a[..0] == b[..0];
      if a != [] {
        forall k | 0 < k <= |a| && k < |b| ensures a[..k] != b[..k] { assert a[..k][0] == a[0] && b[..k][0] == b[0]; }
      }
    }
  }

  // ---------------------------------------------------------------- loading

  datatype Dictionary = Dictionary(text: Text, offsets: seq<nat>, separator: Byte)

  function Key(line: Text): Text {
    match SplitOnce(line, TAB)
    case None => []
    case Some(pair) => pair.before
  }

  /** Where line `i` starts when every line before it is followed by one terminator. */
  function Start(lines: seq<Text>, i: nat): nat
    requires i <= |lines|
  {
    if i == 0 then 0 else Start(lines, i - 1) + |lines[i - 1]| + 1
  }

  /** What is wrong with line `i`, given that nothing is wrong before it. */
  function Fault(lines: seq<Text>, i: nat): Option<Failure>
    requires i < |lines|
  {
    match SplitOnce(lines[i], TAB)
    case None => Some(InvalidRow)
    case Some(pair) =>
      if pair.before == [] || pair.after == [] || (i > 0 && !Less(Key(lines[i - 1]), pair.before)) then Some(NotSorted)
      else if Start(lines, i) >= OFFSETS then Some(TooLarge)
      else None
  }

  ghost predicate Loaded(d: Dictionary) {
    var lines := Lines(d.text);
    |d.offsets| == |lines| && Faultless(lines) && forall i | 0 <= i < |lines| :: d.offsets[i] == Start(lines, i)
  }

  /** The first line at fault, if there is one. */
  ghost predicate FirstFault(lines: seq<Text>, i: nat, e: Failure) {
    i < |lines| && Fault(lines, i) == Some(e) && forall j | 0 <= j < i :: Fault(lines, j) == None
  }

  ghost predicate Faultless(lines: seq<Text>) { forall i | 0 <= i < |lines| :: Fault(lines, i) == None }

  lemma FaultAt(lines: seq<Text>, i: nat)
    requires i < |lines|
    ensures var split := SplitOnce(lines[i], TAB);
      Fault(lines, i) ==
        if split.None? then Some(InvalidRow)
        else if split.value.before == [] || split.value.after == [] || (i > 0 && !Less(Key(lines[i - 1]), split.value.before)) then Some(NotSorted)
        else if Start(lines, i) >= OFFSETS then Some(TooLarge) else None
    ensures SplitOnce(lines[i], TAB).Some? ==> Key(lines[i]) == SplitOnce(lines[i], TAB).value.before
    ensures Start(lines, i + 1) == Start(lines, i) + |lines[i]| + 1
  {}

  lemma {:induction false} FirstTab(key: Text, values: Text)
    requires TAB !in key
    ensures Until(key + [TAB] + values, TAB) == |key|
  {
    if key != [] {
      assert (key + [TAB] + values)[1..] == key[1..] + [TAB] + values;
      FirstTab(key[1..], values);
    }
  }

  /** A line without a tab is invalid; of any other, the part before the first tab must not be empty and come after the key of the
      line before, the part behind it must not be empty, and the line must start below 2^32. */
  lemma FaultIs(lines: seq<Text>, i: nat, key: Text, values: Text)
    requires i < |lines| && TAB !in key
    ensures Fault(lines, i) == Some(InvalidRow) <==> TAB !in lines[i]
    ensures lines[i] == key + [TAB] + values ==>
      && Key(lines[i]) == key
      && Fault(lines, i) ==
           if key == [] || values == [] || (i > 0 && !Less(Key(lines[i - 1]), key)) then Some(NotSorted)
           else if Start(lines, i) >= 0x1_0000_0000 then Some(TooLarge) else None
  {
    hide Less, Start;
    if lines[i] == key + [TAB] + values {
      FirstTab(key, values);
      assert lines[i][..|key|] == key && lines[i][|key| + 1..] == values;
    }
  }

  /** Loading succeeds exactly when no line is at fault; otherwise it reports the first fault. */
  method FromText(text: Text, separator: Byte) returns (r: Result<Dictionary, Failure>)
    ensures r.Ok? <==> Faultless(Lines(text))
    ensures r.Ok? ==> r.value.text == text && r.value.separator == separator && Loaded(r.value)
    ensures r.Err? ==> exists i :: FirstFault(Lines(text), i, r.error)
  {
    hide Lines, SplitOnce, Less, Start, Fault, Key;
    var lines := Lines(text);
    var offsets: seq<nat> := [];
    var byteOffset := 0;
    var previous: Option<Text> := None;
    assert Start(lines, 0) == 0 by { StartsAtZero(lines); }
    for i := 0 to |lines|
      invariant byteOffset == Start(lines, i)
      invariant previous == if i == 0 then None else Some(Key(lines[i - 1]))
      invariant |offsets| == i && forall j | 0 <= j < i :: Fault(lines, j) == None && offsets[j] == Start(lines, j)
    {
      var split := SplitOnce(lines[i], TAB);
      FaultAt(lines, i);
      if split.None? {
        assert FirstFault(lines, i, InvalidRow);
        return Err(InvalidRow);
      }
      var key, values := split.value.before, split.value.after;
      if key == [] || values == [] || (previous.Some? && !Less(previous.value, key)) {
        assert FirstFault(lines, i, NotSorted);
        return Err(NotSorted);
      }
      if byteOffset >= OFFSETS {
        assert FirstFault(lines, i, TooLarge);
        return Err(TooLarge);
      }
      offsets := offsets + [byteOffset];
      previous := Some(key);
      byteOffset := byteOffset + |lines[i]| + 1;
    }
    r := Ok(Dictionary(text, offsets, separator));
  }

  lemma StartsAtZero(lines: seq<Text>)
    ensures Start(lines, 0) == 0
  {}

  // ---------------------------------------------------------------- the offsets recover the lines

  function LineAt(text: Text, offset: nat): Text
    requires offset <= |text|
  {
    var suffix := text[offset..];
    match SplitOnce(suffix, LF)
    case None => suffix
    case Some(pair) => pair.before
  }

  lemma {:induction false} StartInTail(lines: seq<Text>, i: nat)
    requires 0 < i <= |lines|
    ensures Start(lines, i) == |lines[0]| + 1 + Start(lines[1..], i - 1)
  {
    if i > 1 { StartInTail(lines, i - 1); }
  }

  lemma LineInTail(text: Text, n: nat, offset: nat)
    requires n + offset <= |text|
    ensures LineAt(text, n + offset) == LineAt(text[n..], offset)
  {
    assert text[n + offset..] == text[n..][offset..];
  }

  lemma FirstLine(text: Text)
    requires text != []
    ensures LineAt(text, 0) == Lines(text)[0] == text[..Until(text, LF)]
  {
    assert text[0..] == text;
    if Until(text, LF) == |text| { assert text[..|text|] == text; }
  }

  /** Whether or not the text ends in a terminator, reading at the start of a line gives that line. */
  lemma {:induction false} LineAtStart(text: Text, i: nat)
    requires i < |Lines(text)|
    ensures Start(Lines(text), i) <= |text| && LineAt(text, Start(Lines(text), i)) == Lines(text)[i]
    decreases |text|
  {
    hide LineAt, Start;
    var lines := Lines(text);
    var n := Until(text, LF);
    if i == 0 {
      StartsAtZero(lines);
      FirstLine(text);
    } else {
      var rest := text[n + 1..];
      assert lines == [text[..n]] + Lines(rest);
      assert lines[1..] == Lines(rest);
      StartInTail(lines, i);
      LineAtStart(rest, i - 1);
      LineInTail(text, n + 1, Start(Lines(rest), i - 1));
    }
  }

  // ---------------------------------------------------------------- looking up

  function KeyAt(d: Dictionary, offset: nat): Text
    requires offset <= |d.text|
  {
    Key(LineAt(d.text, offset))
  }

  /** Every stored offset lies in the text. */
  predicate Inside(d: Dictionary) { forall i | 0 <= i < |d.offsets| :: d.offsets[i] <= |d.text| }

  function Bisect(d: Dictionary, key: Text, low: nat, high: nat): (r: Option<nat>)
    requires Inside(d) && low <= high <= |d.offsets|
    ensures r.Some? ==> low <= r.value < high
    decreases high - low
  {
    if low == high then None else
    var mid := low + (high - low) / 2;
    var found := KeyAt(d, d.offsets[mid]);
    if found == key then Some(mid)
    else if Less(found, key) then Bisect(d, key, mid + 1, high)
    else Bisect(d, key, low, mid)
  }

  function Get(d: Dictionary, key: Text): Option<seq<Text>>
    requires Inside(d)
  {
    match Bisect(d, key, 0, |d.offsets|)
    case None => None
    case Some(i) =>
      match SplitOnce(LineAt(d.text, d.offsets[i]), TAB)
      case None => None
      case Some(pair) => Some(Split(pair.after, d.separator))
  }

  /** The values on the first line that starts with the key. */
  function Scan(lines: seq<Text>, separator: Byte, key: Text): Option<seq<Text>> {
    if lines == [] then None else
    match SplitOnce(lines[0], TAB)
    case Some(pair) => if pair.before == key then Some(Split(pair.after, separator)) else Scan(lines[1..], separator, key)
    case None => Scan(lines[1..], separator, key)
  }

  lemma {:induction false} KeysAscend(lines: seq<Text>, i: nat, j: nat)
    requires Faultless(lines) && i < j < |lines|
    ensures Less(Key(lines[i]), Key(lines[j]))
  {
    assert Fault(lines, j) == None;
    if i < j - 1 {
      KeysAscend(lines, i, j - 1);
      LessIsTransitive(Key(lines[i]), Key(lines[j - 1]), Key(lines[j]));
    }
  }

  lemma LoadedIsInside(d: Dictionary)
    requires Loaded(d)
    ensures Inside(d) && forall i | 0 <= i < |d.offsets| :: LineAt(d.text, d.offsets[i]) == Lines(d.text)[i]
  {
    forall i | 0 <= i < |d.offsets| ensures d.offsets[i] <= |d.text| && LineAt(d.text, d.offsets[i]) == Lines(d.text)[i] {
      LineAtStart(d.text, i);
    }
  }

  /** Keys on either side of a line compare with the key the same way. */
  lemma KeysAround(lines: seq<Text>, mid: nat, key: Text, i: nat)
    requires Faultless(lines) && mid < |lines| && i < |lines| && Key(lines[mid]) != key
    requires if Less(Key(lines[mid]), key) then i <= mid else mid <= i
    ensures Key(lines[i]) != key
  {
    hide Key, Less;
    LessIsTotal(Key(lines[mid]), key);
    if i < mid { KeysAscend(lines, i, mid); LessIsTotal(Key(lines[i]), Key(lines[mid])); }
    if i > mid { KeysAscend(lines, mid, i); LessIsTotal(Key(lines[i]), Key(lines[mid])); }
  }

  lemma KeyAtLine(d: Dictionary, i: nat)
    requires Loaded(d) && i < |d.offsets|
    ensures Inside(d) && |Lines(d.text)| == |d.offsets| && KeyAt(d, d.offsets[i]) == Key(Lines(d.text)[i]) && Faultless(Lines(d.text))
  {
    hide Lines, LineAt, Key, Faultless;
    LoadedIsInside(d);
  }

  /** Bisection finds the key if any line of the range has it. */
  lemma {:induction false} BisectFinds(d: Dictionary, key: Text, low: nat, high: nat)
    requires Loaded(d) && Inside(d) && low <= high <= |d.offsets| == |Lines(d.text)|
    ensures Bisect(d, key, low, high).Some? ==> Key(Lines(d.text)[Bisect(d, key, low, high).value]) == key
    ensures Bisect(d, key, low, high).None? ==> forall i | low <= i < high :: Key(Lines(d.text)[i]) != key
    decreases high - low
  {
    hide Lines, KeyAt, Key, Less, Faultless, Loaded;
    if low < high {
      var lines := Lines(d.text);
      var mid := low + (high - low) / 2;
      KeyAtLine(d, mid);
      if Key(lines[mid]) == key {
      } else if Less(Key(lines[mid]), key) {
        BisectFinds(d, key, mid + 1, high);
        forall i | low <= i <= mid ensures Key(lines[i]) != key { KeysAround(lines, mid, key, i); }
      } else {
        BisectFinds(d, key, low, mid);
        forall i | mid <= i < high ensures Key(lines[i]) != key { KeysAround(lines, mid, key, i); }
      }
    }
  }

  lemma {:induction false} ScanFinds(lines: seq<Text>, separator: Byte, key: Text, i: nat)
    requires i < |lines| && SplitOnce(lines[i], TAB).Some? && Key(lines[i]) == key
    requires forall j | 0 <= j < i :: Key(lines[j]) != key
    ensures Scan(lines, separator, key) == Some(Split(SplitOnce(lines[i], TAB).value.after, separator))
  {
    if i > 0 {
      assert Key(lines[0]) != key;
      ScanFinds(lines[1..], separator, key, i - 1);
    }
  }

  lemma {:induction false} ScanMisses(lines: seq<Text>, separator: Byte, key: Text)
    requires forall j | 0 <= j < |lines| :: Key(lines[j]) != key
    ensures Scan(lines, separator, key) == None
  {
    if lines != [] {
      assert Key(lines[0]) != key;
      ScanMisses(lines[1..], separator, key);
    }
  }

  /** In a loaded dictionary, looking up by bisection is scanning the lines, and at most one line has the key. */
  lemma GetIsScan(d: Dictionary, key: Text)
    requires Loaded(d)
    ensures Inside(d) && Get(d, key) == Scan(Lines(d.text), d.separator, key)
    ensures Get(d, key).None? <==> forall i | 0 <= i < |Lines(d.text)| :: Key(Lines(d.text)[i]) != key
    ensures forall i, j | 0 <= i < j < |Lines(d.text)| :: !(Key(Lines(d.text)[i]) == key == Key(Lines(d.text)[j]))
  {
    hide Lines, LineAt, Bisect, Scan, Less;
    var lines := Lines(d.text);
    LoadedIsInside(d);
    forall i, j | 0 <= i < j < |lines| ensures Key(lines[i]) != Key(lines[j]) {
      KeysAscend(lines, i, j);
      LessIsTotal(Key(lines[i]), Key(lines[j]));
    }
    BisectFinds(d, key, 0, |d.offsets|);
    var r := Bisect(d, key, 0, |d.offsets|);
    if r.Some? {
      assert Fault(lines, r.value) == None;
      ScanFinds(lines, d.separator, key, r.value);
    } else {
      ScanMisses(lines, d.separator, key);
    }
  }

  // ---------------------------------------------------------------- printing and loading

  function Printed(rows: seq<Pair>): Text {
    if rows == [] then [] else rows[0].before + [TAB] + rows[0].after + [LF] + Printed(rows[1..])
  }

  predicate Clean(row: Pair) { row.before != [] && row.after != [] && LF !in row.before && TAB !in row.before && LF !in row.after }

  function LineOf(row: Pair): Text { row.before + [TAB] + row.after }

  lemma UntilIs(before: Text, c: Byte, after: Text)
    requires c !in before
    ensures Until(before + [c] + after, c) == |before| && SplitOnce(before + [c] + after, c) == Some(Pair(before, after))
  {
    hide Until;
    var s := before + [c] + after;
    var m := Until(s, c);
    assert m <= |before| by { assert s[|before|] == c; }
    assert m >= |before| by { assert forall k | 0 <= k < |before| :: s[k] == before[k] && before[k] in before; }
    assert s[..|before|] == before && s[|before| + 1..] == after;
  }

  lemma LinesCons(line: Text, rest: Text)
    requires LF !in line
    ensures Lines(line + [LF] + rest) == [line] + Lines(rest)
  {
    hide Until;
    var text := line + [LF] + rest;
    UntilIs(line, LF, rest);
    assert text[..|line|] == line && text[|line| + 1..] == rest;
  }

  lemma {:induction false} LinesOfPrinted(rows: seq<Pair>)
    requires forall i | 0 <= i < |rows| :: Clean(rows[i])
    ensures |Lines(Printed(rows))| == |rows| && forall i | 0 <= i < |rows| :: Lines(Printed(rows))[i] == LineOf(rows[i])
  {
    hide Lines;
    if rows == [] {
      assert Lines([]) == [] by { NoLines(); }
    } else {
      assert Printed(rows) == LineOf(rows[0]) + [LF] + Printed(rows[1..]);
      LinesCons(LineOf(rows[0]), Printed(rows[1..]));
      LinesOfPrinted(rows[1..]);
    }
  }

  lemma NoLines()
    ensures Lines([]) == []
  {}

  lemma SplitLine(row: Pair)
    requires Clean(row)
    ensures SplitOnce(LineOf(row), TAB) == Some(row) && Key(LineOf(row)) == row.before
  {
    UntilIs(row.before, TAB, row.after);
  }

  /** Sorted rows that are printed, loaded and looked up come back: every key gives its own values, and no other key any. */
  lemma PrintedRowsAreFound(rows: seq<Pair>, d: Dictionary, key: Text)
    requires forall i | 0 <= i < |rows| :: Clean(rows[i])
    requires d.text == Printed(rows) && Loaded(d)
    ensures Inside(d)
    ensures forall i | 0 <= i < |rows| && rows[i].before == key :: Get(d, key) == Some(Split(rows[i].after, d.separator))
    ensures (forall i | 0 <= i < |rows| :: rows[i].before != key) ==> Get(d, key) == None
  {
    hide Printed, Lines, Scan, Get, Split;
    var lines := Lines(d.text);
    LinesOfPrinted(rows);
    GetIsScan(d, key);
    forall i | 0 <= i < |rows| ensures Key(lines[i]) == rows[i].before && SplitOnce(lines[i], TAB) == Some(rows[i]) {
      SplitLine(rows[i]);
    }
    forall i | 0 <= i < |rows| && rows[i].before == key ensures Get(d, key) == Some(Split(rows[i].after, d.separator)) {
      assert Key(lines[i]) == key;
      ScanFinds(lines, d.separator, key, i);
    }
  }
}
