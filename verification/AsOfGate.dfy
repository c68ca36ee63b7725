/** The fast gate before the AS OF rewrite: a scan of the bytes, and what it says about the characters. */
module AsOfGate {
  import opened SqlText

  // ---- the gate ----------------------------------------------------------------------------------------------

  predicate IsWord(c: int) {
    ('0' as int <= c <= '9' as int) || ('A' as int <= c <= 'Z' as int) || ('a' as int <= c <= 'z' as int)
    || c == '_' as int || c == '$' as int
  }

  predicate IsBlank(c: int) {
    c == 32 || c == 9 || c == 10 || c == 12 || c == 13
  }

  predicate SameLetter(c: int, lower: char)
    requires 'a' <= lower <= 'z'
  {
    c == lower as int || c == lower as int - 32
  }

  predicate TwoLetters(b: seq<int>, i: nat, first: char, second: char)
    requires i + 1 < |b| && 'a' <= first <= 'z' && 'a' <= second <= 'z'
  {
    SameLetter(b[i], first) && SameLetter(b[i + 1], second)
  }

  predicate WordStarts(b: seq<int>, i: nat)
    requires i <= |b|
  {
    i == 0 || !IsWord(b[i - 1])
  }

  predicate WordEnds(b: seq<int>, i: nat) {
    i >= |b| || !IsWord(b[i])
  }

  ghost predicate AllBlank(b: seq<int>, i: nat, j: nat)
    requires j <= |b|
  {
    forall x :: i <= x < j ==> IsBlank(b[x])
  }

  /** The word AS at `i`, blanks up to `j`, the word OF at `j`. */
  ghost predicate WordsAt(b: seq<int>, i: nat, j: nat) {
    && i + 2 < j && j + 1 < |b|
    && TwoLetters(b, i, 'a', 's') && WordStarts(b, i) && AllBlank(b, i + 2, j)
    && TwoLetters(b, j, 'o', 'f') && WordEnds(b, j + 2)
  }

  /** Somewhere in the bytes. */
  ghost predicate WordsIn(b: seq<int>) {
    exists i: nat, j: nat :: WordsAt(b, i, j)
  }

  method SkipBlanks(b: seq<int>, from: nat) returns (j: nat)
    requires from <= |b|
    ensures from <= j <= |b| && (forall x :: from <= x < j ==> IsBlank(b[x])) && (j < |b| ==> !IsBlank(b[j]))
  {
    j := from;
    while j < |b| && IsBlank(b[j])
      invariant from <= j <= |b| && forall x :: from <= x < j ==> IsBlank(b[x])
    {
      j := j + 1;
    }
  }

  /** The fast gate: true exactly when the word AS is followed, after blanks only, by the word OF. */
  method MightContain(b: seq<int>) returns (might: bool)
    ensures might <==> WordsIn(b)
  {
    var i := 0;
    while i + 1 < |b|
      invariant 0 <= i && forall p: nat, q: nat :: p < i ==> !WordsAt(b, p, q)
    {
      if SameLetter(b[i], 'a') && SameLetter(b[i + 1], 's') && (i == 0 || !IsWord(b[i - 1])) {
        if i + 2 < |b| && !IsWord(b[i + 2]) {
          var j := SkipBlanks(b, i + 2);
          if j + 1 < |b| && SameLetter(b[j], 'o') && SameLetter(b[j + 1], 'f') && (j + 2 >= |b| || !IsWord(b[j + 2])) {
            assert j != i + 2;
            assert WordsAt(b, i, j);
            return true;
          }
          forall q: nat ensures !WordsAt(b, i, q) {
            if q < j {
              assert i + 2 < q ==> IsBlank(b[q]);
            } else if q > j {
              assert j < |b| ==> !IsBlank(b[j]);
            }
          }
        }
      }
      i := i + 1;
    }
    return false;
  }

  // ---- the gate, told on the characters -----------------------------------------------------------------------

  ghost predicate WordChar(c: char) {
    '0' <= c <= '9' || 'A' <= c <= 'Z' || 'a' <= c <= 'z' || c == '_' || c == '$'
  }

  /** Blank, tab, newline, form feed and carriage return. */
  ghost predicate BlankChar(c: char) {
    c == ' ' || c == '\t' || c == '\n' || c == '\r' || c == 12 as char
  }

  ghost predicate TwoChars(t: Text, i: nat, upper: Text, lower: Text)
    requires i + 1 < |t| && |upper| == |lower| == 2
  {
    (t[i] == upper[0] || t[i] == lower[0]) && (t[i + 1] == upper[1] || t[i + 1] == lower[1])
  }

  ghost predicate BlankChars(t: Text, i: nat, j: nat)
    requires j <= |t|
  {
    forall x :: i <= x < j ==> BlankChar(t[x])
  }

  /** The word AS in either case at `i`, blanks up to `j`, the word OF in either case at `j`. */
  ghost predicate AsOfIn(t: Text, i: nat, j: nat) {
    && i + 2 < j && j + 1 < |t|
    && TwoChars(t, i, "AS", "as") && (i > 0 ==> !WordChar(t[i - 1])) && BlankChars(t, i + 2, j)
    && TwoChars(t, j, "OF", "of") && (j + 2 < |t| ==> !WordChar(t[j + 2]))
  }

  /** The text names AS and OF somewhere. */
  ghost predicate Gated(t: Text) {
    exists i: nat, j: nat :: AsOfIn(t, i, j)
  }

  lemma {:induction false} CharBytes(t: Text, i: nat, d: nat)
    requires i < |t| && d < |Utf8(t[i])|
    ensures OffsetOf(t, i) + d < OffsetOf(t, i + 1) <= |Encode(t)|
    ensures Encode(t)[OffsetOf(t, i) + d] == Utf8(t[i])[d]
    decreases |t|
  {
    var init := t[..|t| - 1];
    OffsetNext(t, i);
    if i < |t| - 1 {
      CharBytes(init, i, d);
      assert init[..i] == t[..i] && init[..i + 1] == t[..i + 1];
    } else {
      assert t[..|t|] == t;
    }
  }

  lemma {:induction false} ByteChar(t: Text, p: nat) returns (i: nat, d: nat)
    requires p < |Encode(t)|
    ensures i < |t| && d < |Utf8(t[i])| && p == OffsetOf(t, i) + d
  {
    var init := t[..|t| - 1];
    if p < |Encode(init)| {
      i, d := ByteChar(init, p);
      assert init[..i] == t[..i];
    } else {
      i, d := |t| - 1, p - |Encode(init)|;
    }
  }

  lemma AsciiByte(c: char, d: nat)
    requires d < |Utf8(c)|
    ensures Utf8(c)[d] < 0x80 ==> |Utf8(c)| == 1 && Utf8(c)[d] == c as int
    ensures c as int < 0x80 ==> |Utf8(c)| == 1 && Utf8(c)[d] == c as int
  {}

  /** An ASCII byte is the character it stands for. */
  lemma AsciiHere(t: Text, p: nat) returns (i: nat)
    requires p < |Encode(t)| && Encode(t)[p] < 0x80
    ensures i < |t| && OffsetOf(t, i) == p && OffsetOf(t, i + 1) == p + 1 && t[i] as int == Encode(t)[p]
  {
    var d;
    i, d := ByteChar(t, p);
    CharBytes(t, i, d);
    AsciiByte(t[i], d);
    OffsetNext(t, i);
  }

  lemma AsciiNext(t: Text, i: nat)
    requires i < |t|
    ensures OffsetOf(t, i) < OffsetOf(t, i + 1) <= |Encode(t)|
    ensures t[i] as int < 0x80 || Encode(t)[OffsetOf(t, i)] < 0x80 || OffsetOf(t, i + 1) == OffsetOf(t, i) + 1 ==>
      OffsetOf(t, i + 1) == OffsetOf(t, i) + 1 && t[i] as int == Encode(t)[OffsetOf(t, i)]
  {
    CharBytes(t, i, 0);
    AsciiByte(t[i], 0);
    OffsetNext(t, i);
  }

  /** The characters from `i` to `j` take one byte each. */
  ghost predicate Straight(t: Text, i: nat, j: nat) {
    i <= j <= |t| && forall x :: i <= x <= j ==> OffsetOf(t, x) == OffsetOf(t, i) + (x - i)
  }

  lemma {:induction false} RunOfChars(t: Text, i: nat, j: nat)
    requires i <= j <= |t| && forall x :: i <= x < j ==> t[x] as int < 0x80
    ensures Straight(t, i, j)
  {
    if i < j {
      RunOfChars(t, i, j - 1);
      AsciiNext(t, j - 1);
    }
  }

  lemma {:induction false} RunOfBytes(t: Text, i: nat, n: nat)
    requires i <= |t| && OffsetOf(t, i) + n <= |Encode(t)|
    requires forall y :: OffsetOf(t, i) <= y < OffsetOf(t, i) + n ==> Encode(t)[y] < 0x80
    ensures Straight(t, i, i + n)
  {
    if n > 0 {
      RunOfBytes(t, i, n - 1);
      var j := i + n - 1;
      assert t[..|t|] == t;
      assert OffsetOf(t, j) == OffsetOf(t, i) + (n - 1);
      AsciiNext(t, j);
    }
  }

  lemma AtChar(t: Text, i: nat, j: nat, x: nat)
    requires Straight(t, i, j) && i <= x < j
    ensures OffsetOf(t, i) + (x - i) < |Encode(t)| && Encode(t)[OffsetOf(t, i) + (x - i)] == t[x] as int
  {
    assert OffsetOf(t, x) == OffsetOf(t, i) + (x - i) && OffsetOf(t, x + 1) == OffsetOf(t, i) + (x + 1 - i);
    AsciiNext(t, x);
  }

  lemma WordByte(c: char, b: int)
    requires b < 0x80 || c as int < 0x80 ==> b == c as int
    ensures IsWord(b) <==> WordChar(c)
  {}

  /** The last byte of a character. */
  lemma LastByte(t: Text, i: nat)
    requires i < |t|
    ensures 0 < OffsetOf(t, i + 1) <= |Encode(t)|
    ensures var y := Encode(t)[OffsetOf(t, i + 1) - 1]; y < 0x80 || t[i] as int < 0x80 ==> y == t[i] as int
  {
    var d := |Utf8(t[i])| - 1;
    CharBytes(t, i, d);
    OffsetNext(t, i);
    AsciiByte(t[i], d);
  }

  /** The byte before and the byte behind belong to a word exactly when the character does. */
  lemma SameStart(t: Text, i: nat)
    requires i <= |t|
    ensures OffsetOf(t, i) <= |Encode(t)|
    ensures WordStarts(Encode(t), OffsetOf(t, i)) <==> (i > 0 ==> !WordChar(t[i - 1]))
  {
    if i == 0 {
      assert t[..0] == [];
    } else {
      WordBefore(t, i - 1, i);
    }
  }

  lemma WordBefore(t: Text, k: nat, i: nat)
    requires k < |t| && i == k + 1
    ensures 0 < OffsetOf(t, i) <= |Encode(t)| && (IsWord(Encode(t)[OffsetOf(t, i) - 1]) <==> WordChar(t[k]))
  {
    LastByte(t, k);
    WordByte(t[k], Encode(t)[OffsetOf(t, i) - 1]);
  }

  lemma SameEnd(t: Text, j: nat)
    requires j <= |t|
    ensures WordEnds(Encode(t), OffsetOf(t, j)) <==> (j < |t| ==> !WordChar(t[j]))
  {
    if j < |t| {
      AsciiNext(t, j);
      WordByte(t[j], Encode(t)[OffsetOf(t, j)]);
    } else {
      assert t[..|t|] == t;
    }
  }

  lemma SameTwo(t: Text, i: nat, j: nat, x: nat, upper: Text, lower: Text)
    requires Straight(t, i, j) && i <= x && x + 1 < j
    requires |upper| == |lower| == 2 && 'a' <= lower[0] <= 'z' && 'a' <= lower[1] <= 'z'
    requires upper[0] as int == lower[0] as int - 32 && upper[1] as int == lower[1] as int - 32
    ensures OffsetOf(t, i) + (x - i) + 1 < |Encode(t)|
    ensures TwoLetters(Encode(t), OffsetOf(t, i) + (x - i), lower[0], lower[1]) <==> TwoChars(t, x, upper, lower)
  {
    AtChar(t, i, j, x);
    AtChar(t, i, j, x + 1);
    SameCase(t[x], upper[0], lower[0]);
    SameCase(t[x + 1], upper[1], lower[1]);
  }

  lemma SameCase(c: char, upper: char, lower: char)
    requires 'a' <= lower <= 'z' && upper as int == lower as int - 32
    ensures SameLetter(c as int, lower) <==> c == upper || c == lower
  {}

  lemma SameBlanks(t: Text, i: nat, j: nat, x: nat, y: nat)
    requires Straight(t, i, j) && i <= x <= y < j
    ensures OffsetOf(t, i) + (y - i) <= |Encode(t)|
    ensures AllBlank(Encode(t), OffsetOf(t, i) + (x - i), OffsetOf(t, i) + (y - i)) <==> BlankChars(t, x, y)
  {
    var b, p := Encode(t), OffsetOf(t, i);
    AtChar(t, i, j, y);
    if BlankChars(t, x, y) {
      forall z | p + (x - i) <= z < p + (y - i) ensures IsBlank(b[z]) { AtChar(t, i, j, i + (z - p)); }
    }
    if AllBlank(b, p + (x - i), p + (y - i)) {
      forall z | x <= z < y ensures BlankChar(t[z]) { AtChar(t, i, j, z); }
    }
  }

  /** Over a run of one-byte characters the two readings agree. */
  lemma SameWords(t: Text, i: nat, j: nat)
    requires i + 2 < j && Straight(t, i, j + 2)
    ensures AsOfIn(t, i, j) <==> WordsAt(Encode(t), OffsetOf(t, i), OffsetOf(t, i) + (j - i))
  {
    var p := OffsetOf(t, i);
    var q := p + (j - i);
    SameTwo(t, i, j + 2, i, "AS", "as");
    SameTwo(t, i, j + 2, j, "OF", "of");
    SameBlanks(t, i, j + 2, i + 2, j);
    SameStart(t, i);
    SameEnd(t, j + 2);
    assert OffsetOf(t, j + 2) == q + 2;
    SameParts(t, i, j, Encode(t), p, q);
  }

  lemma SameParts(t: Text, i: nat, j: nat, b: seq<int>, p: nat, q: nat)
    requires i + 2 < j && j + 1 < |t| && p + 2 < q && q + 1 < |b|
    requires TwoLetters(b, p, 'a', 's') <==> TwoChars(t, i, "AS", "as")
    requires TwoLetters(b, q, 'o', 'f') <==> TwoChars(t, j, "OF", "of")
    requires AllBlank(b, p + 2, q) <==> BlankChars(t, i + 2, j)
    requires WordStarts(b, p) <==> (i > 0 ==> !WordChar(t[i - 1]))
    requires WordEnds(b, q + 2) <==> (j + 2 < |t| ==> !WordChar(t[j + 2]))
    ensures AsOfIn(t, i, j) <==> WordsAt(b, p, q)
  {}

  lemma CharsAscii(t: Text, i: nat, j: nat)
    requires AsOfIn(t, i, j)
    ensures forall x :: i <= x < j + 2 ==> t[x] as int < 0x80
  {
    forall x | i <= x < j + 2 ensures t[x] as int < 0x80 {
      if i + 2 <= x < j { assert BlankChar(t[x]); }
    }
  }

  lemma BytesAscii(b: seq<int>, p: nat, q: nat)
    requires WordsAt(b, p, q)
    ensures forall y :: p <= y < q + 2 ==> b[y] < 0x80
  {
    forall y | p <= y < q + 2 ensures b[y] < 0x80 {
      if p + 2 <= y < q { assert IsBlank(b[y]); }
    }
  }

  lemma CharsGate(t: Text, i: nat, j: nat)
    requires AsOfIn(t, i, j)
    ensures WordsIn(Encode(t))
  {
    CharsAscii(t, i, j);
    RunOfChars(t, i, j + 2);
    SameWords(t, i, j);
  }

  lemma BytesGate(t: Text, p: nat, q: nat)
    requires WordsAt(Encode(t), p, q)
    ensures Gated(t)
  {
    BytesAscii(Encode(t), p, q);
    assert Encode(t)[p] < 0x80;
    var i := AsciiHere(t, p);
    RunOfBytes(t, i, q + 2 - p);
    SameWords(t, i, i + (q - p));
  }

  /** What the gate finds in the bytes is what the characters say, whatever else is in the text. */
  lemma GateReads(t: Text)
    ensures WordsIn(Encode(t)) <==> Gated(t)
  {
    if Gated(t) {
      var i: nat, j: nat :| AsOfIn(t, i, j);
      CharsGate(t, i, j);
    }
    if WordsIn(Encode(t)) {
      var p: nat, q: nat :| WordsAt(Encode(t), p, q);
      BytesGate(t, p, q);
    }
  }
}
