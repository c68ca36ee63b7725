/** The text of a statement: its UTF-8 bytes, and lines and columns. */
module SqlText {
  import opened Rows

  // ---- text and bytes ---------------------------------------------------------------------------------

  type Text = seq<char>

  predicate Continues(b: int) {
    0x80 <= b <= 0xBF
  }

  /** RFC 3629, section 3: the bytes decode to the code point `u`, in the shortest form. */
  predicate Decodes(b: seq<int>, u: int) {
    || (|b| == 1 && 0 <= b[0] <= 0x7F && u == b[0])
    || (|b| == 2 && 0xC2 <= b[0] <= 0xDF && Continues(b[1]) && u == (b[0] - 0xC0) * 64 + (b[1] - 0x80))
    || (|b| == 3 && 0xE0 <= b[0] <= 0xEF && Continues(b[1]) && Continues(b[2])
        && u == (b[0] - 0xE0) * 4096 + (b[1] - 0x80) * 64 + (b[2] - 0x80) && u >= 0x800)
    || (|b| == 4 && 0xF0 <= b[0] <= 0xF4 && Continues(b[1]) && Continues(b[2]) && Continues(b[3])
        && u == (b[0] - 0xF0) * 262144 + (b[1] - 0x80) * 4096 + (b[2] - 0x80) * 64 + (b[3] - 0x80) && u >= 0x10000)
  }

  /** The UTF-8 encoding of one character. */
  function Utf8(c: char): (bytes: seq<int>)
    ensures 1 <= |bytes| <= 4
  {
    var u := c as int;
    if u < 0x80 then [u]
    else if u < 0x800 then [0xC0 + u / 64, 0x80 + u % 64]
    else if u < 0x10000 then [0xE0 + u / 4096, 0x80 + u / 64 % 64, 0x80 + u % 64]
    else [0xF0 + u / 262144, 0x80 + u / 4096 % 64, 0x80 + u / 64 % 64, 0x80 + u % 64]
  }

  lemma SixBits(u: nat)
    ensures u == u / 64 * 64 + u % 64 && 0 <= u % 64 < 64
  {}

  lemma Utf8Decodes(c: char)
    ensures Decodes(Utf8(c), c as int)
  {
    var u := c as int;
    SixBits(u);
    SixBits(u / 64);
    SixBits(u / 4096);
    assert u / 64 / 64 == u / 4096 && u / 4096 / 64 == u / 262144;
  }

  function Encode(t: Text): seq<int> {
    if |t| == 0 then [] else Encode(t[..|t| - 1]) + Utf8(t[|t| - 1])
  }

  /** The byte offset of the `i`-th character. */
  function OffsetOf(t: Text, i: nat): nat
    requires i <= |t|
  {
    |Encode(t[..i])|
  }

  // ---- line and column ---------------------------------------------------------------------------------

  datatype Location = Location(line: nat, column: nat)

  /** Where the text before the `i`-th character ends, both counted from one. */
  function LocationAt(t: Text, i: nat): Location
    requires i <= |t|
  {
    if i == 0 then Location(1, 1)
    else
      var before := LocationAt(t, i - 1);
      if t[i - 1] == '\n' then Location(before.line + 1, 1) else Location(before.line, before.column + 1)
  }

  /** The line counts the newlines passed, the column the characters since the last of them. */
  lemma {:induction false} LocationCounts(t: Text, i: nat) returns (start: nat)
    requires i <= |t|
    ensures LocationAt(t, i).line == 1 + multiset(t[..i])['\n']
    ensures start <= i && (start == 0 || t[start - 1] == '\n') && (forall j :: start <= j < i ==> t[j] != '\n')
    ensures LocationAt(t, i).column == 1 + (i - start)
  {
    if i == 0 { return 0; }
    start := LocationCounts(t, i - 1);
    assert t[..i] == t[..i - 1] + [t[i - 1]];
    if t[i - 1] == '\n' {
      start := i;
    }
  }

  predicate Before(a: Location, b: Location) {
    a.line < b.line || (a.line == b.line && a.column < b.column)
  }

  lemma {:induction false} LocationsRise(t: Text, i: nat, j: nat)
    requires i < j <= |t|
    ensures Before(LocationAt(t, i), LocationAt(t, j))
    decreases j
  {
    if i < j - 1 { LocationsRise(t, i, j - 1); }
  }

  lemma LocationsDiffer(t: Text, i: nat, j: nat)
    requires i <= |t| && j <= |t| && LocationAt(t, i) == LocationAt(t, j)
    ensures i == j
  {
    if i < j {
      LocationsRise(t, i, j);
    } else if j < i {
      LocationsRise(t, j, i);
    }
  }

  lemma OffsetNext(t: Text, i: nat)
    requires i < |t|
    ensures OffsetOf(t, i + 1) == OffsetOf(t, i) + |Utf8(t[i])|
  {
    assert t[..i + 1][..i] == t[..i];
  }

  lemma {:induction false} OffsetsRise(t: Text, i: nat, j: nat)
    requires i < j <= |t|
    ensures OffsetOf(t, i) < OffsetOf(t, j)
    decreases j
  {
    OffsetNext(t, j - 1);
    if i < j - 1 { OffsetsRise(t, i, j - 1); }
  }

  /** The byte offset of a line and column: the inverse of the numbering, for multi-byte characters
      and newlines alike, and nothing for a place the text does not have. */
  method ByteOffset(t: Text, line: nat, column: nat) returns (offset: Option<nat>)
    ensures forall i :: 0 <= i <= |t| && LocationAt(t, i) == Location(line, column) ==> offset == Some(OffsetOf(t, i))
    ensures offset.Some? ==> exists i :: 0 <= i <= |t| && LocationAt(t, i) == Location(line, column)
  {
    var curLine, curColumn, idx := 1, 1, 0;
    var i := 0;
    while i < |t|
      invariant 0 <= i <= |t| && idx == OffsetOf(t, i)
      invariant LocationAt(t, i) == Location(curLine, curColumn)
      invariant forall j :: 0 <= j < i ==> LocationAt(t, j) != Location(line, column)
    {
      if curLine == line && curColumn == column {
        OnlyHere(t, i, line, column);
        return Some(idx);
      }
      OffsetNext(t, i);
      idx := idx + |Utf8(t[i])|;
      if t[i] == '\n' {
        curLine, curColumn := curLine + 1, 1;
      } else {
        curColumn := curColumn + 1;
      }
      i := i + 1;
    }
    if curLine == line && curColumn == column {
      OnlyHere(t, |t|, line, column);
      return Some(idx);
    }
    return None;
  }

  lemma OnlyHere(t: Text, i: nat, line: nat, column: nat)
    requires i <= |t| && LocationAt(t, i) == Location(line, column)
    ensures forall j :: 0 <= j <= |t| && LocationAt(t, j) == Location(line, column) ==> j == i
  {
    forall j | 0 <= j <= |t| && LocationAt(t, j) == Location(line, column) ensures j == i { LocationsDiffer(t, i, j); }
  }
}
