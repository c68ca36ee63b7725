/** The AS OF sugar: finding `<relation> AS OF <version>` in the token stream, locating it in the
    text, and splicing the replacement in. */
module AsOf {
  import opened Rows
  import opened SqlText
  import opened AsOfGate

  // ---- tokens --------------------------------------------------------------------------------------------

  datatype Keyword = As | Of | Timestamp | From | Join | OtherKeyword | NoKeyword

  datatype Token =
    | Word(value: Text, quoted: bool, keyword: Keyword)
    | Number(id: Option<int>)
    | Literal(text: Text)
    | Period
    | Comma
    | Blank
    | Other

  datatype Spanned = Spanned(token: Token, start: Location)

  /** The tokens stand one after another in the text, token `i` at character `at[i]`. */
  ghost predicate Tiles(t: Text, tokens: seq<Spanned>, at: seq<nat>) {
    && |at| == |tokens|
    && (forall i, j :: 0 <= i < j < |at| ==> at[i] < at[j])
    && (forall i :: 0 <= i < |at| ==> at[i] < |t| && tokens[i].start == LocationAt(t, at[i]))
  }

  datatype Spec = AtTimestamp(literal: Text) | AtSnapshot(id: int)

  datatype Match =
    | NoMatch
    | ThreeParts
    | Match(first: nat, last: nat, namespace: Option<Text>, table: Text, spec: Spec)

  predicate IsKeyword(tok: Token, kw: Keyword) {
    tok.Word? && tok.keyword == kw && !tok.quoted
  }

  predicate IsName(tok: Token) {
    tok.Word? && (tok.quoted || tok.keyword == NoKeyword)
  }

  function Lower(c: char): char {
    if 'A' <= c <= 'Z' then (c as int + 32) as char else c
  }

  function LowerText(t: Text): (r: Text)
    ensures |r| == |t|
  {
    if |t| == 0 then [] else LowerText(t[..|t| - 1]) + [Lower(t[|t| - 1])]
  }

  function Normal(tok: Token): Text
    requires tok.Word?
  {
    if tok.quoted then tok.value else LowerText(tok.value)
  }

  /** The version after AS OF at `k`: the selector and its last token. */
  function Version(sig: seq<Token>, k: nat): Option<(Spec, nat)>
    requires k + 1 < |sig|
  {
    if k + 3 < |sig| && IsKeyword(sig[k + 2], Timestamp) then
      if sig[k + 3].Literal? then Some((AtTimestamp(sig[k + 3].text), k + 3)) else None
    else if k + 2 < |sig| && sig[k + 2].Number? && sig[k + 2].id.Some? then Some((AtSnapshot(sig[k + 2].id.value), k + 2))
    else None
  }

  /** The relation name that ends just before `k`. */
  predicate Qualified(sig: seq<Token>, k: nat)
    requires k < |sig|
  {
    k >= 3 && sig[k - 2].Period? && IsName(sig[k - 3])
  }

  predicate TableContext(tok: Token) {
    tok.Comma? || IsKeyword(tok, From) || IsKeyword(tok, Join)
  }

  /** Whether the significant tokens around `k` are the sugar. */
  function MatchAt(sig: seq<Token>, k: nat): Match
    requires k < |sig|
  {
    if !IsKeyword(sig[k], As) || k + 1 >= |sig| || !IsKeyword(sig[k + 1], Of) then NoMatch
    else
      var version := Version(sig, k);
      if version.None? || k == 0 || !IsName(sig[k - 1]) then NoMatch
      else if Qualified(sig, k) && k >= 5 && sig[k - 4].Period? then ThreeParts
      else
        var first := if Qualified(sig, k) then k - 3 else k - 1;
        if first == 0 || !TableContext(sig[first - 1]) then NoMatch
        else Match(first, version.value.1, if Qualified(sig, k) then Some(Normal(sig[k - 3])) else None,
                   Normal(sig[k - 1]), version.value.0)
  }

  // ---- the sugar, read forwards ----------------------------------------------------------------------------

  ghost predicate Plain(tok: Token, kw: Keyword) {
    tok.Word? && !tok.quoted && tok.keyword == kw
  }

  /** The token names something: a quoted word as written, another that is no keyword in lower case. */
  ghost predicate Names(tok: Token, name: Text) {
    && tok.Word? && (tok.quoted || tok.keyword == NoKeyword)
    && if tok.quoted then name == tok.value
       else |name| == |tok.value| && forall i :: 0 <= i < |name| ==>
              name[i] == if 'A' <= tok.value[i] <= 'Z' then (tok.value[i] as int - 'A' as int + 'a' as int) as char
                         else tok.value[i]
  }

  /** At `j` stands a version: TIMESTAMP with its literal, or a snapshot id; it ends with token `last`. */
  ghost predicate Selects(sig: seq<Token>, j: nat, last: nat, spec: Spec) {
    || (j + 1 < |sig| && last == j + 1 && Plain(sig[j], Timestamp) && sig[j + 1].Literal? && spec == AtTimestamp(sig[j + 1].text))
    || (j < |sig| && last == j && sig[j].Number? && sig[j].id.Some? && spec == AtSnapshot(sig[j].id.value))
  }

  ghost predicate AsOfAt(sig: seq<Token>, k: nat, last: nat, spec: Spec) {
    k + 1 < |sig| && Plain(sig[k], As) && Plain(sig[k + 1], Of) && Selects(sig, k + 2, last, spec)
  }

  /** Behind a comma, FROM or JOIN at `c` stands a table word, a namespace word and a period before it or
      not, and then AS OF and a version. */
  ghost predicate Reads(sig: seq<Token>, c: nat, last: nat, namespace: Option<Text>, table: Text, spec: Spec) {
    && c < |sig| && (sig[c].Comma? || Plain(sig[c], From) || Plain(sig[c], Join))
    && match namespace
       case None => c + 1 < |sig| && Names(sig[c + 1], table) && AsOfAt(sig, c + 2, last, spec)
       case Some(ns) =>
         && c + 3 < |sig| && Names(sig[c + 1], ns) && sig[c + 2].Period? && Names(sig[c + 3], table)
         && AsOfAt(sig, c + 4, last, spec)
  }

  /** A third name part: a period before a namespace word, a period, a table word, AS OF and a version. */
  ghost predicate ReadsThree(sig: seq<Token>, j: nat, ns: Text, table: Text, last: nat, spec: Spec) {
    && j > 0 && j + 3 < |sig| && sig[j].Period? && Names(sig[j + 1], ns) && sig[j + 2].Period? && Names(sig[j + 3], table)
    && AsOfAt(sig, j + 4, last, spec)
  }

  lemma {:induction false} LowerAt(t: Text, i: nat)
    requires i < |t|
    ensures LowerText(t)[i] == Lower(t[i])
  {
    if i < |t| - 1 { LowerAt(t[..|t| - 1], i); }
  }

  lemma NormalNames(tok: Token, name: Text)
    ensures Names(tok, name) <==> IsName(tok) && name == Normal(tok)
  {
    if tok.Word? && !tok.quoted {
      forall i | 0 <= i < |tok.value| ensures LowerText(tok.value)[i] == Lower(tok.value[i]) { LowerAt(tok.value, i); }
      if Names(tok, name) { assert name == LowerText(tok.value); }
    }
  }

  lemma VersionSelects(sig: seq<Token>, k: nat, last: nat, spec: Spec)
    requires k + 1 < |sig|
    ensures Selects(sig, k + 2, last, spec) <==> Version(sig, k) == Some((spec, last))
  {}

  /** Matching around AS is reading forwards. */
  lemma MatchReads(sig: seq<Token>, c: nat, last: nat, namespace: Option<Text>, table: Text, spec: Spec)
    ensures var k := if namespace.Some? then c + 4 else c + 2;
            Reads(sig, c, last, namespace, table, spec)
            <==> k < |sig| && MatchAt(sig, k) == Match(c + 1, last, namespace, table, spec)
  {
    var k := if namespace.Some? then c + 4 else c + 2;
    if k + 1 < |sig| {
      VersionSelects(sig, k, last, spec);
      NormalNames(sig[k - 1], table);
      if namespace.Some? { NormalNames(sig[c + 1], namespace.value); }
    }
  }

  /** What a match is, read forwards. */
  lemma MatchIsRead(sig: seq<Token>, k: nat) returns (c: nat)
    requires k < |sig| && MatchAt(sig, k).Match?
    ensures var m := MatchAt(sig, k);
            m.first == c + 1 < |sig| && m.last < |sig| && Reads(sig, c, m.last, m.namespace, m.table, m.spec)
  {
    var m := MatchAt(sig, k);
    c := m.first - 1;
    MatchReads(sig, c, m.last, m.namespace, m.table, m.spec);
  }

  /** Whatever reads as the sugar is matched at its AS. */
  lemma ReadMatches(sig: seq<Token>, c: nat, last: nat, namespace: Option<Text>, table: Text, spec: Spec) returns (k: nat)
    requires Reads(sig, c, last, namespace, table, spec)
    ensures k < |sig| && MatchAt(sig, k) == Match(c + 1, last, namespace, table, spec)
  {
    k := if namespace.Some? then c + 4 else c + 2;
    MatchReads(sig, c, last, namespace, table, spec);
  }

  lemma MatchThree(sig: seq<Token>, j: nat)
    requires j + 4 < |sig|
    ensures MatchAt(sig, j + 4).ThreeParts? <==> exists ns, table, last: nat, spec :: ReadsThree(sig, j, ns, table, last, spec)
  {
    var k := j + 4;
    if MatchAt(sig, k).ThreeParts? {
      var (spec, last) := Version(sig, k).value;
      VersionSelects(sig, k, last, spec);
      NormalNames(sig[j + 1], Normal(sig[j + 1]));
      NormalNames(sig[j + 3], Normal(sig[j + 3]));
      assert ReadsThree(sig, j, Normal(sig[j + 1]), Normal(sig[j + 3]), last, spec);
    }
    if ns, table, last: nat, spec :| ReadsThree(sig, j, ns, table, last, spec) {
      VersionSelects(sig, k, last, spec);
      NormalNames(sig[j + 1], ns);
      NormalNames(sig[j + 3], table);
    }
  }

  /** Two matches never share a token: between them lies at least the version's last one. */
  lemma MatchesApart(sig: seq<Token>, k: nat, k': nat)
    requires k < k' < |sig| && MatchAt(sig, k).Match? && MatchAt(sig, k').Match?
    ensures MatchAt(sig, k).first < MatchAt(sig, k).last < MatchAt(sig, k').first
  {
    var m := MatchAt(sig, k);
    assert k' != k + 1 && k' != k + 2;
    if m.last == k + 3 {
      assert sig[k + 3].Literal? && k' != k + 3 && k' != k + 4;
    } else {
      assert sig[k + 2].Number? && k' != k + 3;
    }
  }

  // ---- occurrences ---------------------------------------------------------------------------------------

  /** One matched occurrence: its byte range and what it names. */
  datatype Occurrence = Occurrence(start: nat, end: nat, namespace: Option<Text>, table: Text, spec: Spec)

  /** Indices of the tokens that are not blank, in order. */
  function Significant(tokens: seq<Spanned>): (r: seq<nat>)
    ensures forall i :: 0 <= i < |r| ==> r[i] < |tokens| && !tokens[r[i]].token.Blank?
    ensures forall i, j :: 0 <= i < j < |r| ==> r[i] < r[j]
  {
    if |tokens| == 0 then []
    else
      var init := Significant(tokens[..|tokens| - 1]);
      if tokens[|tokens| - 1].token.Blank? then init else init + [|tokens| - 1]
  }

  /** ... and all of them. */
  lemma {:induction false} SignificantAll(tokens: seq<Spanned>, j: nat)
    requires j < |tokens|
    ensures j in Significant(tokens) <==> !tokens[j].token.Blank?
  {
    if j < |tokens| - 1 {
      SignificantAll(tokens[..|tokens| - 1], j);
    }
  }

  function SigTokens(tokens: seq<Spanned>): (r: seq<Token>)
    ensures |r| == |Significant(tokens)|
  {
    var sig := Significant(tokens);
    seq(|sig|, i requires 0 <= i < |sig| => tokens[sig[i]].token)
  }

  /** Where a token starts, or the text ends. */
  ghost function StartOf(t: Text, tokens: seq<Spanned>, at: seq<nat>, i: nat): nat
    requires Tiles(t, tokens, at) && i <= |tokens|
  {
    if i < |tokens| then OffsetOf(t, at[i]) else |Encode(t)|
  }

  lemma StartsRise(t: Text, tokens: seq<Spanned>, at: seq<nat>, i: nat, j: nat)
    requires Tiles(t, tokens, at) && i < j <= |tokens|
    ensures StartOf(t, tokens, at, i) < StartOf(t, tokens, at, j)
  {
    assert t[..|t|] == t;
    OffsetsRise(t, at[i], if j < |tokens| then at[j] else |t|);
  }

  /** The occurrence a match stands for: from its first token up to whatever follows its last. */
  ghost predicate OccursAt(t: Text, tokens: seq<Spanned>, at: seq<nat>, m: Match, occ: Occurrence)
    requires Tiles(t, tokens, at) && m.Match?
  {
    var sig := Significant(tokens);
    && m.first < |sig| && m.last < |sig|
    && occ == Occurrence(StartOf(t, tokens, at, sig[m.first]), StartOf(t, tokens, at, sig[m.last] + 1),
                         m.namespace, m.table, m.spec)
  }

  /** The places below `n` where the sugar matches. */
  function MatchesBelow(sig: seq<Token>, n: nat): (r: seq<nat>)
    requires n <= |sig|
    ensures forall i :: 0 <= i < |r| ==> r[i] < n && MatchAt(sig, r[i]).Match?
    ensures forall i, j :: 0 <= i < j < |r| ==> r[i] < r[j]
  {
    if n == 0 then []
    else
      var init := MatchesBelow(sig, n - 1);
      if MatchAt(sig, n - 1).Match? then init + [n - 1] else init
  }

  ghost predicate FoundBelow(t: Text, tokens: seq<Spanned>, at: seq<nat>, n: nat, out: seq<Occurrence>)
    requires Tiles(t, tokens, at) && n <= |SigTokens(tokens)|
  {
    var ks := MatchesBelow(SigTokens(tokens), n);
    |out| == |ks| && forall i :: 0 <= i < |ks| ==> OccursAt(t, tokens, at, MatchAt(SigTokens(tokens), ks[i]), out[i])
  }

  lemma MatchInRange(sig: seq<Token>, k: nat)
    requires k < |sig| && MatchAt(sig, k).Match?
    ensures MatchAt(sig, k).first < k < MatchAt(sig, k).last < |sig|
  {}

  method Locate(t: Text, tokens: seq<Spanned>, ghost at: seq<nat>, m: Match, sig: seq<nat>) returns (occ: Occurrence)
    requires Tiles(t, tokens, at) && m.Match? && sig == Significant(tokens) && m.first < |sig| && m.last < |sig|
    ensures OccursAt(t, tokens, at, m, occ)
  {
    var from := tokens[sig[m.first]].start;
    var start := ByteOffset(t, from.line, from.column);
    assert start == Some(OffsetOf(t, at[sig[m.first]]));
    var end := Some(|Encode(t)|);
    if sig[m.last] + 1 < |tokens| {
      var next := tokens[sig[m.last] + 1].start;
      end := ByteOffset(t, next.line, next.column);
      assert end == Some(OffsetOf(t, at[sig[m.last] + 1]));
    }
    occ := Occurrence(start.value, end.value, m.namespace, m.table, m.spec);
  }

  lemma FoundNext(t: Text, tokens: seq<Spanned>, at: seq<nat>, k: nat, out: seq<Occurrence>, occ: Occurrence)
    requires Tiles(t, tokens, at) && k < |SigTokens(tokens)| && FoundBelow(t, tokens, at, k, out)
    requires MatchAt(SigTokens(tokens), k).Match? && OccursAt(t, tokens, at, MatchAt(SigTokens(tokens), k), occ)
    ensures FoundBelow(t, tokens, at, k + 1, out + [occ])
  {
    var ks := MatchesBelow(SigTokens(tokens), k);
    assert MatchesBelow(SigTokens(tokens), k + 1) == ks + [k];
  }

  /** A relation with three name parts among the matches at the first `n` tokens. */
  ghost predicate ThreePartsBelow(sig: seq<Token>, n: nat)
    requires n <= |sig|
  {
    exists k :: 0 <= k < n && MatchAt(sig, k).ThreeParts?
  }

  lemma ThreePartsNext(sig: seq<Token>, n: nat)
    requires n < |sig|
    ensures ThreePartsBelow(sig, n + 1) <==> ThreePartsBelow(sig, n) || MatchAt(sig, n).ThreeParts?
    ensures ThreePartsBelow(sig, n + 1) ==> ThreePartsBelow(sig, |sig|)
  {
    if k :| 0 <= k < n + 1 && MatchAt(sig, k).ThreeParts? {
      assert k < |sig|;
    }
  }

  ghost predicate SomeThreeParts(tokens: seq<Spanned>) {
    exists j: nat, ns, table, last: nat, spec :: ReadsThree(SigTokens(tokens), j, ns, table, last, spec)
  }

  lemma ThreePartsAt(sig: seq<Token>, k: nat) returns (j: nat, ns: Text, table: Text, last: nat, spec: Spec)
    requires k < |sig| && MatchAt(sig, k).ThreeParts?
    ensures ReadsThree(sig, j, ns, table, last, spec)
  {
    j := k - 4;
    MatchThree(sig, j);
    ns, table, last, spec :| ReadsThree(sig, j, ns, table, last, spec);
  }

  lemma ThreePartsThere(sig: seq<Token>, j: nat, ns: Text, table: Text, last: nat, spec: Spec)
    requires ReadsThree(sig, j, ns, table, last, spec)
    ensures ThreePartsBelow(sig, |sig|)
  {
    MatchThree(sig, j);
    assert MatchAt(sig, j + 4).ThreeParts?;
  }

  lemma ThreePartsAre(tokens: seq<Spanned>)
    ensures ThreePartsBelow(SigTokens(tokens), |SigTokens(tokens)|) <==> SomeThreeParts(tokens)
  {
    var sig := SigTokens(tokens);
    if ThreePartsBelow(sig, |sig|) {
      var k :| 0 <= k < |sig| && MatchAt(sig, k).ThreeParts?;
      var j, ns, table, last, spec := ThreePartsAt(sig, k);
    }
    if j: nat, ns, table, last: nat, spec :| ReadsThree(sig, j, ns, table, last, spec) {
      ThreePartsThere(sig, j, ns, table, last, spec);
    }
  }

  /** The occurrence is the sugar somewhere: it names what stands there, from the first name to whatever
      follows the version. */
  ghost predicate Stands(t: Text, tokens: seq<Spanned>, at: seq<nat>, occ: Occurrence)
    requires Tiles(t, tokens, at)
  {
    exists c: nat, last: nat :: StandsAt(t, tokens, at, c, last, occ)
  }

  ghost predicate StandsAt(t: Text, tokens: seq<Spanned>, at: seq<nat>, c: nat, last: nat, occ: Occurrence)
    requires Tiles(t, tokens, at)
  {
    var sig := Significant(tokens);
    && Reads(SigTokens(tokens), c, last, occ.namespace, occ.table, occ.spec)
    && c + 1 < |sig| && last < |sig|
    && occ.start == StartOf(t, tokens, at, sig[c + 1]) && occ.end == StartOf(t, tokens, at, sig[last] + 1)
  }

  lemma MatchStands(t: Text, tokens: seq<Spanned>, at: seq<nat>, m: Match, c: nat, occ: Occurrence)
    requires Tiles(t, tokens, at) && m.Match? && OccursAt(t, tokens, at, m, occ) && m.first == c + 1
    requires Reads(SigTokens(tokens), c, m.last, m.namespace, m.table, m.spec)
    ensures Stands(t, tokens, at, occ)
  {
    assert StandsAt(t, tokens, at, c, m.last, occ);
  }

  lemma FoundAt(t: Text, tokens: seq<Spanned>, at: seq<nat>, occs: seq<Occurrence>, i: nat) returns (k: nat)
    requires Tiles(t, tokens, at) && FoundBelow(t, tokens, at, |SigTokens(tokens)|, occs) && i < |occs|
    ensures k < |SigTokens(tokens)| && MatchAt(SigTokens(tokens), k).Match?
    ensures OccursAt(t, tokens, at, MatchAt(SigTokens(tokens), k), occs[i])
  {
    k := MatchesBelow(SigTokens(tokens), |SigTokens(tokens)|)[i];
  }

  lemma FoundStands(t: Text, tokens: seq<Spanned>, at: seq<nat>, occs: seq<Occurrence>, i: nat)
    requires Tiles(t, tokens, at) && FoundBelow(t, tokens, at, |SigTokens(tokens)|, occs) && i < |occs|
    ensures Stands(t, tokens, at, occs[i])
  {
    var k := FoundAt(t, tokens, at, occs, i);
    var c := MatchIsRead(SigTokens(tokens), k);
    MatchStands(t, tokens, at, MatchAt(SigTokens(tokens), k), c, occs[i]);
  }

  lemma {:induction false} MatchesAll(sig: seq<Token>, n: nat, k: nat)
    requires k < n <= |sig| && MatchAt(sig, k).Match?
    ensures k in MatchesBelow(sig, n)
  {
    if k < n - 1 { MatchesAll(sig, n - 1, k); }
  }

  lemma StandsOnce(t: Text, tokens: seq<Spanned>, at: seq<nat>, m: Match, c: nat, occ: Occurrence, found: Occurrence)
    requires Tiles(t, tokens, at) && m.Match? && m == Match(c + 1, m.last, occ.namespace, occ.table, occ.spec)
    requires StandsAt(t, tokens, at, c, m.last, occ) && OccursAt(t, tokens, at, m, found)
    ensures found == occ
  {}

  lemma StandsFound(t: Text, tokens: seq<Spanned>, at: seq<nat>, occs: seq<Occurrence>, occ: Occurrence)
    requires Tiles(t, tokens, at) && FoundBelow(t, tokens, at, |SigTokens(tokens)|, occs) && Stands(t, tokens, at, occ)
    ensures occ in occs
  {
    var sig := SigTokens(tokens);
    var c: nat, last: nat :| StandsAt(t, tokens, at, c, last, occ);
    var k := ReadMatches(sig, c, last, occ.namespace, occ.table, occ.spec);
    MatchesAll(sig, |sig|, k);
    var i := FoundWhere(t, tokens, at, occs, k);
    StandsOnce(t, tokens, at, MatchAt(sig, k), c, occ, occs[i]);
  }

  lemma FoundWhere(t: Text, tokens: seq<Spanned>, at: seq<nat>, occs: seq<Occurrence>, k: nat) returns (i: nat)
    requires Tiles(t, tokens, at) && FoundBelow(t, tokens, at, |SigTokens(tokens)|, occs)
    requires k in MatchesBelow(SigTokens(tokens), |SigTokens(tokens)|)
    ensures i < |occs| && k < |SigTokens(tokens)|
    ensures MatchAt(SigTokens(tokens), k).Match? && OccursAt(t, tokens, at, MatchAt(SigTokens(tokens), k), occs[i])
  {
    var ks := MatchesBelow(SigTokens(tokens), |SigTokens(tokens)|);
    i :| 0 <= i < |ks| && ks[i] == k;
  }

  /** The occurrences are exactly those of the sugar, each once, from left to right. */
  ghost predicate AllStanding(t: Text, tokens: seq<Spanned>, at: seq<nat>, occs: seq<Occurrence>)
    requires Tiles(t, tokens, at)
  {
    (forall occ :: occ in occs <==> Stands(t, tokens, at, occ)) && InOrder(occs, |Encode(t)|)
  }

  lemma FoundAll(t: Text, tokens: seq<Spanned>, at: seq<nat>, occs: seq<Occurrence>)
    requires Tiles(t, tokens, at) && FoundBelow(t, tokens, at, |SigTokens(tokens)|, occs)
    ensures AllStanding(t, tokens, at, occs)
  {
    OccurrencesApart(t, tokens, at, occs);
    forall occ ensures occ in occs <==> Stands(t, tokens, at, occ) {
      if occ in occs {
        var i :| 0 <= i < |occs| && occs[i] == occ;
        FoundStands(t, tokens, at, occs, i);
      }
      if Stands(t, tokens, at, occ) { StandsFound(t, tokens, at, occs, occ); }
    }
  }

  /** One token further: the match there, unless its relation has three name parts. */
  method NextMatch(t: Text, tokens: seq<Spanned>, ghost at: seq<nat>, k: nat, before: seq<Occurrence>)
    returns (out: Option<seq<Occurrence>>)
    requires Tiles(t, tokens, at) && k < |SigTokens(tokens)| && FoundBelow(t, tokens, at, k, before)
    ensures out.None? <==> MatchAt(SigTokens(tokens), k).ThreeParts?
    ensures out.Some? ==> FoundBelow(t, tokens, at, k + 1, out.value)
  {
    if MatchAt(SigTokens(tokens), k).ThreeParts? {
      return None;
    }
    var more := TakeMatch(t, tokens, at, k, before);
    out := Some(more);
  }

  method TakeMatch(t: Text, tokens: seq<Spanned>, ghost at: seq<nat>, k: nat, before: seq<Occurrence>)
    returns (out: seq<Occurrence>)
    requires Tiles(t, tokens, at) && k < |SigTokens(tokens)| && FoundBelow(t, tokens, at, k, before)
    requires !MatchAt(SigTokens(tokens), k).ThreeParts?
    ensures FoundBelow(t, tokens, at, k + 1, out)
  {
    var m := MatchAt(SigTokens(tokens), k);
    if m.Match? {
      MatchInRange(SigTokens(tokens), k);
      var occ := Locate(t, tokens, at, m, Significant(tokens));
      FoundNext(t, tokens, at, k, before, occ);
      out := before + [occ];
    } else {
      FoundSame(t, tokens, at, k, before);
      out := before;
    }
  }

  lemma FoundSame(t: Text, tokens: seq<Spanned>, at: seq<nat>, k: nat, out: seq<Occurrence>)
    requires Tiles(t, tokens, at) && k < |SigTokens(tokens)| && FoundBelow(t, tokens, at, k, out)
    requires !MatchAt(SigTokens(tokens), k).Match?
    ensures FoundBelow(t, tokens, at, k + 1, out)
  {
    assert MatchesBelow(SigTokens(tokens), k + 1) == MatchesBelow(SigTokens(tokens), k);
  }

  /** Every occurrence of the sugar, in order; an error when a relation has three name parts. */
  method FindOccurrences(t: Text, tokens: seq<Spanned>, ghost at: seq<nat>) returns (found: Option<seq<Occurrence>>)
    requires Tiles(t, tokens, at)
    ensures found.None? <==> SomeThreeParts(tokens)
    ensures found.Some? ==> AllStanding(t, tokens, at, found.value)
  {
    ThreePartsAre(tokens);
    var toks := SigTokens(tokens);
    var out: seq<Occurrence> := [];
    var k := 0;
    while k < |toks|
      invariant 0 <= k <= |toks| && FoundBelow(t, tokens, at, k, out)
      invariant !ThreePartsBelow(toks, k)
    {
      var next := NextMatch(t, tokens, at, k, out);
      ThreePartsNext(toks, k);
      if next.None? {
        return None;
      }
      out := next.value;
      k := k + 1;
    }
    FoundAll(t, tokens, at, out);
    found := Some(out);
  }

  /** Ranges in order that do not overlap. */
  ghost predicate InOrder(occs: seq<Occurrence>, size: nat) {
    && (forall i :: 0 <= i < |occs| ==> occs[i].start < occs[i].end <= size)
    && (forall i, j :: 0 <= i < j < |occs| ==> occs[i].end <= occs[j].start)
  }

  lemma OccurrenceSize(t: Text, tokens: seq<Spanned>, at: seq<nat>, m: Match, occ: Occurrence)
    requires Tiles(t, tokens, at) && m.Match? && OccursAt(t, tokens, at, m, occ) && m.first < m.last
    ensures occ.start < occ.end <= |Encode(t)|
  {
    var sig := Significant(tokens);
    RangeSize(t, tokens, at, sig[m.first], sig[m.last] + 1);
  }

  lemma RangeSize(t: Text, tokens: seq<Spanned>, at: seq<nat>, a: nat, b: nat)
    requires Tiles(t, tokens, at) && a < b <= |tokens|
    ensures StartOf(t, tokens, at, a) < StartOf(t, tokens, at, b) <= |Encode(t)|
  {
    StartsRise(t, tokens, at, a, b);
    if b < |tokens| { StartsRise(t, tokens, at, b, |tokens|); }
  }

  lemma OccurrenceOrder(t: Text, tokens: seq<Spanned>, at: seq<nat>, m: Match, m': Match, occ: Occurrence, occ': Occurrence)
    requires Tiles(t, tokens, at) && m.Match? && m'.Match?
    requires OccursAt(t, tokens, at, m, occ) && OccursAt(t, tokens, at, m', occ')
    requires m.last < m'.first
    ensures occ.end <= occ'.start
  {
    var sig := Significant(tokens);
    StartsNotFall(t, tokens, at, sig[m.last] + 1, sig[m'.first]);
  }

  lemma StartsNotFall(t: Text, tokens: seq<Spanned>, at: seq<nat>, i: nat, j: nat)
    requires Tiles(t, tokens, at) && i <= j <= |tokens|
    ensures StartOf(t, tokens, at, i) <= StartOf(t, tokens, at, j)
  {
    if i < j { StartsRise(t, tokens, at, i, j); }
  }

  /** Matched occurrences are in order and never overlap. */
  lemma OccurrencesApart(t: Text, tokens: seq<Spanned>, at: seq<nat>, occs: seq<Occurrence>)
    requires Tiles(t, tokens, at) && FoundBelow(t, tokens, at, |SigTokens(tokens)|, occs)
    ensures InOrder(occs, |Encode(t)|)
  {
    var toks := SigTokens(tokens);
    var ks := MatchesBelow(toks, |toks|);
    forall i | 0 <= i < |occs| ensures occs[i].start < occs[i].end <= |Encode(t)| {
      MatchInRange(toks, ks[i]);
      OccurrenceSize(t, tokens, at, MatchAt(toks, ks[i]), occs[i]);
    }
    forall i, j | 0 <= i < j < |occs| ensures occs[i].end <= occs[j].start {
      MatchesApart(toks, ks[i], ks[j]);
      OccurrenceOrder(t, tokens, at, MatchAt(toks, ks[i]), MatchAt(toks, ks[j]), occs[i], occs[j]);
    }
  }

  // ---- the splice -----------------------------------------------------------------------------------------

  /** One pass from the left: the text between the ranges as it is, each range replaced. */
  function LeftToRight(bytes: seq<int>, occs: seq<Occurrence>, texts: seq<seq<int>>, from: nat): seq<int>
    requires InOrder(occs, |bytes|) && |texts| == |occs| && from <= |bytes|
    requires |occs| > 0 ==> from <= occs[0].start
    decreases |occs|
  {
    if |occs| == 0 then bytes[from..]
    else bytes[from..occs[0].start] + (texts[0] + LeftToRight(bytes, occs[1..], texts[1..], occs[0].end))
  }

  function ReplaceRange(bytes: seq<int>, start: nat, end: nat, text: seq<int>): seq<int>
    requires start <= end <= |bytes|
  {
    bytes[..start] + text + bytes[end..]
  }

  /** Starting further left only adds the text in between. */
  lemma LeftPart(bytes: seq<int>, occs: seq<Occurrence>, texts: seq<seq<int>>, from: nat, to: nat)
    requires InOrder(occs, |bytes|) && |texts| == |occs| && from <= to <= |bytes|
    requires |occs| > 0 ==> to <= occs[0].start
    ensures LeftToRight(bytes, occs, texts, from) == bytes[from..to] + LeftToRight(bytes, occs, texts, to)
  {
    if |occs| == 0 {
      assert bytes[from..] == bytes[from..to] + bytes[to..];
    } else {
      SliceSplit(bytes, from, to, occs[0].start, texts[0] + LeftToRight(bytes, occs[1..], texts[1..], occs[0].end));
    }
  }

  lemma SliceSplit(bytes: seq<int>, from: nat, to: nat, end: nat, tail: seq<int>)
    requires from <= to <= end <= |bytes|
    ensures bytes[from..end] + tail == bytes[from..to] + (bytes[to..end] + tail)
  {
    assert bytes[from..end] == bytes[from..to] + bytes[to..end];
  }

  /** Replacing the last range not yet done in the text where all later ones are done. */
  lemma SpliceOne(bytes: seq<int>, occs: seq<Occurrence>, texts: seq<seq<int>>)
    requires InOrder(occs, |bytes|) && |texts| == |occs| > 0
    ensures occs[0].end <= |LeftToRight(bytes, occs[1..], texts[1..], 0)|
    ensures ReplaceRange(LeftToRight(bytes, occs[1..], texts[1..], 0), occs[0].start, occs[0].end, texts[0])
         == LeftToRight(bytes, occs, texts, 0)
  {
    var s, e := occs[0].start, occs[0].end;
    var done := LeftToRight(bytes, occs[1..], texts[1..], 0);
    LeftPart(bytes, occs[1..], texts[1..], 0, e);
    var rest := LeftToRight(bytes, occs[1..], texts[1..], e);
    assert done == bytes[0..e] + rest;
    assert done[..s] == bytes[0..s] && done[e..] == rest;
  }

  /** How much longer the first `i` replacements have made the text. */
  function Shift(occs: seq<Occurrence>, texts: seq<seq<int>>, i: nat): int
    requires i <= |occs| == |texts|
  {
    if i == 0 then 0 else Shift(occs, texts, i - 1) + |texts[i - 1]| - (occs[i - 1].end - occs[i - 1].start)
  }

  lemma {:induction false} ShiftTail(occs: seq<Occurrence>, texts: seq<seq<int>>, i: nat)
    requires 0 < i <= |occs| == |texts|
    ensures Shift(occs, texts, i) == |texts[0]| - (occs[0].end - occs[0].start) + Shift(occs[1..], texts[1..], i - 1)
  {
    if i > 1 { ShiftTail(occs, texts, i - 1); }
  }

  /** A byte behind the first `i` ranges and before the others stands in the new text, moved by the shift. */
  lemma {:induction false} SplicedByte(bytes: seq<int>, occs: seq<Occurrence>, texts: seq<seq<int>>, from: nat, i: nat, p: nat)
    requires InOrder(occs, |bytes|) && |texts| == |occs| && (|occs| > 0 ==> from <= occs[0].start)
    requires i <= |occs| && from <= p < |bytes|
    requires (i > 0 ==> occs[i - 1].end <= p) && (i < |occs| ==> p < occs[i].start)
    ensures var at, r := p - from + Shift(occs, texts, i), LeftToRight(bytes, occs, texts, from);
            0 <= at < |r| && r[at] == bytes[p]
    decreases i
  {
    if |occs| == 0 { return; }
    FirstOf(bytes, occs, texts, from);
    if i == 0 {
      InGap(bytes, from, occs[0].start, texts[0] + LeftToRight(bytes, occs[1..], texts[1..], occs[0].end), p);
      return;
    }
    var e := occs[0].end;
    ShiftTail(occs, texts, i);
    if i > 1 { BehindFirst(occs, |bytes|, i - 1); }
    SplicedByte(bytes, occs[1..], texts[1..], e, i - 1, p);
    AfterFirst(bytes[from..occs[0].start], texts[0], LeftToRight(bytes, occs[1..], texts[1..], e),
               p - e + Shift(occs[1..], texts[1..], i - 1));
  }

  lemma InGap(bytes: seq<int>, from: nat, start: nat, rest: seq<int>, p: nat)
    requires from <= p < start <= |bytes|
    ensures (bytes[from..start] + rest)[p - from] == bytes[p]
  {}

  lemma FirstOf(bytes: seq<int>, occs: seq<Occurrence>, texts: seq<seq<int>>, from: nat)
    requires InOrder(occs, |bytes|) && |texts| == |occs| > 0 && from <= occs[0].start
    ensures occs[0].start < occs[0].end <= |bytes| && InOrder(occs[1..], |bytes|)
    ensures |occs| > 1 ==> occs[0].end <= occs[1].start
    ensures LeftToRight(bytes, occs, texts, from)
         == bytes[from..occs[0].start] + (texts[0] + LeftToRight(bytes, occs[1..], texts[1..], occs[0].end))
  {
    OrderSuffix(occs, |bytes|, 1);
  }

  lemma BehindFirst(occs: seq<Occurrence>, size: nat, i: nat)
    requires InOrder(occs, size) && 0 < i < |occs|
    ensures occs[0].end <= occs[i].start < occs[i].end
  {}

  lemma AfterFirst(gap: seq<int>, text: seq<int>, rest: seq<int>, at: nat)
    requires at < |rest|
    ensures (gap + (text + rest))[|gap| + |text| + at] == rest[at]
  {}

  /** The `i`-th replacement stands where its range began, moved by the shift before it. */
  lemma {:induction false} SplicedText(bytes: seq<int>, occs: seq<Occurrence>, texts: seq<seq<int>>, from: nat, i: nat, x: nat)
    requires InOrder(occs, |bytes|) && |texts| == |occs| && i < |occs| && from <= occs[0].start && x < |texts[i]|
    ensures var at, r := occs[i].start - from + Shift(occs, texts, i) + x, LeftToRight(bytes, occs, texts, from);
            0 <= at < |r| && r[at] == texts[i][x]
    decreases i
  {
    FirstOf(bytes, occs, texts, from);
    if i > 0 {
      var e := occs[0].end;
      ShiftTail(occs, texts, i);
      BehindFirst(occs, |bytes|, i);
      SplicedText(bytes, occs[1..], texts[1..], e, i - 1, x);
      AfterFirst(bytes[from..occs[0].start], texts[0], LeftToRight(bytes, occs[1..], texts[1..], e),
                 occs[i].start - e + Shift(occs[1..], texts[1..], i - 1) + x);
    }
  }

  /** Nothing else is in it. */
  lemma {:induction false} SplicedSize(bytes: seq<int>, occs: seq<Occurrence>, texts: seq<seq<int>>, from: nat)
    requires InOrder(occs, |bytes|) && |texts| == |occs| && from <= |bytes| && (|occs| > 0 ==> from <= occs[0].start)
    ensures |LeftToRight(bytes, occs, texts, from)| == |bytes| - from + Shift(occs, texts, |occs|)
    decreases |occs|
  {
    if |occs| > 0 {
      FirstOf(bytes, occs, texts, from);
      ShiftTail(occs, texts, |occs|);
      SplicedSize(bytes, occs[1..], texts[1..], occs[0].end);
    }
  }

  lemma OrderSuffix(occs: seq<Occurrence>, size: nat, i: nat)
    requires InOrder(occs, size) && i <= |occs|
    ensures InOrder(occs[i..], size)
  {
    forall a | 0 <= a < |occs[i..]| ensures occs[i..][a] == occs[i + a] {}
  }

  /** Back to front, in place: earlier offsets stay valid, and the outcome is the one pass from the
      left. */
  method Splice(bytes: seq<int>, occs: seq<Occurrence>, texts: seq<seq<int>>) returns (rewritten: seq<int>)
    requires InOrder(occs, |bytes|) && |texts| == |occs|
    ensures rewritten == LeftToRight(bytes, occs, texts, 0)
  {
    rewritten := bytes;
    var i := |occs|;
    OrderSuffix(occs, |bytes|, i);
    assert LeftToRight(bytes, occs[i..], texts[i..], 0) == bytes[0..];
    while i > 0
      invariant 0 <= i <= |occs| && InOrder(occs[i..], |bytes|)
      invariant rewritten == LeftToRight(bytes, occs[i..], texts[i..], 0)
    {
      i := i - 1;
      OrderSuffix(occs, |bytes|, i);
      assert occs[i..][1..] == occs[i + 1..] && texts[i..][1..] == texts[i + 1..];
      SpliceOne(bytes, occs[i..], texts[i..]);
      rewritten := ReplaceRange(rewritten, occs[i].start, occs[i].end, texts[i]);
    }
    assert occs[0..] == occs && texts[0..] == texts;
  }

  // ---- the snapshot at a time ---------------------------------------------------------------------------------

  datatype LogEntry = LogEntry(timestamp: int, id: int)

  datatype Resolved = At(id: int) | BeforeHistory | Expired(id: int)

  ghost predicate Newest(log: seq<LogEntry>, time: int, i: nat) {
    i < |log| && log[i].timestamp <= time && forall j :: i < j < |log| ==> log[j].timestamp > time
  }

  /** The last log entry at or before the time, if metadata still knows its snapshot. */
  method SnapshotAt(log: seq<LogEntry>, known: int -> bool, time: int) returns (r: Resolved)
    ensures r.BeforeHistory? <==> forall i :: 0 <= i < |log| ==> log[i].timestamp > time
    ensures !r.BeforeHistory? ==> exists i: nat :: Newest(log, time, i) && r == if known(log[i].id) then At(log[i].id) else Expired(log[i].id)
  {
    var i := |log|;
    while i > 0
      invariant 0 <= i <= |log| && forall j :: i <= j < |log| ==> log[j].timestamp > time
    {
      i := i - 1;
      if log[i].timestamp <= time {
        assert Newest(log, time, i);
        return if known(log[i].id) then At(log[i].id) else Expired(log[i].id);
      }
    }
    return BeforeHistory;
  }

  // ---- the whole rewrite -----------------------------------------------------------------------------------------

  datatype Outcome = Untouched | Failed | Rewritten(bytes: seq<int>)

  /** Gate, find, splice. `resolve` names the replacement of an occurrence, or fails; it stands for the
      catalog. */
  method RewriteAsOf(t: Text, tokens: seq<Spanned>, ghost at: seq<nat>, resolve: Occurrence -> Option<seq<int>>)
    returns (res: Outcome, ghost occs: seq<Occurrence>, ghost texts: seq<seq<int>>)
    requires Tiles(t, tokens, at)
    ensures !Gated(t) ==> res == Untouched
    ensures Gated(t) && SomeThreeParts(tokens) ==> res == Failed
    ensures Gated(t) && !SomeThreeParts(tokens) ==>
      && AllStanding(t, tokens, at, occs)
      && (res == Untouched <==> occs == [])
      && (res.Rewritten? <==> occs != [] && forall i :: 0 <= i < |occs| ==> resolve(occs[i]).Some?)
    ensures res.Rewritten? ==> Gated(t) && !SomeThreeParts(tokens) && |texts| == |occs|
    ensures res.Rewritten? ==>
      && (forall i :: 0 <= i < |occs| ==> resolve(occs[i]).Some? && texts[i] == resolve(occs[i]).value + [32])
      && InOrder(occs, |Encode(t)|) && res.bytes == LeftToRight(Encode(t), occs, texts, 0)
  {
    occs, texts := [], [];
    var might := MightContain(Encode(t));
    GateReads(t);
    if !might {
      return Untouched, occs, texts;
    }
    var found := FindOccurrences(t, tokens, at);
    if found.None? {
      return Failed, occs, texts;
    }
    occs := found.value;
    if found.value == [] {
      return Untouched, occs, texts;
    }
    var replacements := ResolveAll(found.value, resolve);
    if replacements.None? {
      return Failed, occs, texts;
    }
    texts := replacements.value;
    var rewritten := Splice(Encode(t), found.value, replacements.value);
    res := Rewritten(rewritten);
  }

  /** Each occurrence's replacement, a blank after it; the first that cannot be named fails the statement. */
  method ResolveAll(occs: seq<Occurrence>, resolve: Occurrence -> Option<seq<int>>) returns (texts: Option<seq<seq<int>>>)
    ensures texts.None? <==> exists i :: 0 <= i < |occs| && resolve(occs[i]).None?
    ensures texts.Some? ==> |texts.value| == |occs|
    ensures texts.Some? ==>
      forall i :: 0 <= i < |occs| ==> resolve(occs[i]).Some? && texts.value[i] == resolve(occs[i]).value + [32]
  {
    var replacements: seq<seq<int>> := [];
    var i := 0;
    while i < |occs|
      invariant 0 <= i <= |occs| && |replacements| == i
      invariant forall j :: 0 <= j < i ==> resolve(occs[j]).Some? && replacements[j] == resolve(occs[j]).value + [32]
    {
      var r := resolve(occs[i]);
      if r.None? {
        return None;
      }
      replacements := replacements + [r.value + [32]];
      i := i + 1;
    }
    return Some(replacements);
  }

  // ---- a statement the finder would take and the gate does not ---------------------------------------------------

  lemma {:induction false} OneLine(t: Text, i: nat)
    requires i <= |t| && forall j :: 0 <= j < |t| ==> t[j] != '\n'
    ensures LocationAt(t, i) == Location(1, i + 1)
  {
    if i > 0 { OneLine(t, i - 1); }
  }

  lemma SigSnoc(tokens: seq<Spanned>, x: Spanned)
    ensures SigTokens(tokens + [x]) == SigTokens(tokens) + (if x.token.Blank? then [] else [x.token])
  {
    var all := tokens + [x];
    assert all[..|tokens|] == tokens;
    var sig := Significant(tokens);
    forall i | 0 <= i < |sig| ensures all[sig[i]].token == tokens[sig[i]].token {}
  }

  const QUERY: Text := "SELECT * FROM t AS/**/OF 5"
  const QUERY_AT: seq<nat> := [0, 6, 7, 8, 9, 13, 14, 15, 16, 18, 22, 24, 25]
  const QUERY_WORDS: seq<Token> := [
    Word("SELECT", false, OtherKeyword), Blank, Other, Blank, Word("FROM", false, From), Blank,
    Word("t", false, NoKeyword), Blank, Word("AS", false, As), Blank, Word("OF", false, Of), Blank, Number(Some(5))]

  function Spanning(words: seq<Token>, at: seq<nat>): (r: seq<Spanned>)
    requires |words| <= |at|
    ensures |r| == |words| && forall i :: 0 <= i < |words| ==> r[i] == Spanned(words[i], Location(1, at[i] + 1))
  {
    seq(|words|, i requires 0 <= i < |words| => Spanned(words[i], Location(1, at[i] + 1)))
  }

  /** The tokens of the query; a comment is blank. */
  function QueryTokens(): seq<Spanned> {
    Spanning(QUERY_WORDS, QUERY_AT)
  }

  lemma QueryText()
    ensures |QUERY| == 26 && forall i :: 0 <= i < |QUERY| ==> QUERY[i] as int < 0x80 && QUERY[i] != '\n'
  {}

  lemma QueryPlaces()
    ensures |QUERY_AT| == |QUERY_WORDS| == 13
    ensures forall i :: 0 <= i < |QUERY_AT| ==> QUERY_AT[i] < 26
    ensures forall i :: 0 <= i < |QUERY_AT| - 1 ==> QUERY_AT[i] < QUERY_AT[i + 1]
  {}

  lemma {:induction false} PlacesRise(at: seq<nat>, i: nat, j: nat)
    requires i < j < |at| && forall k :: 0 <= k < |at| - 1 ==> at[k] < at[k + 1]
    ensures at[i] < at[j]
    decreases j
  {
    if i < j - 1 { PlacesRise(at, i, j - 1); }
  }

  lemma SpanningTiles(t: Text, words: seq<Token>, at: seq<nat>)
    requires |words| == |at| && (forall j :: 0 <= j < |t| ==> t[j] != '\n')
    requires (forall k :: 0 <= k < |at| - 1 ==> at[k] < at[k + 1]) && forall k :: 0 <= k < |at| ==> at[k] < |t|
    ensures Tiles(t, Spanning(words, at), at)
  {
    forall i, j | 0 <= i < j < |at| ensures at[i] < at[j] { PlacesRise(at, i, j); }
    forall i | 0 <= i < |at| ensures Spanning(words, at)[i].start == LocationAt(t, at[i]) { OneLine(t, at[i]); }
  }

  lemma QueryTiles()
    ensures Tiles(QUERY, QueryTokens(), QUERY_AT)
  {
    QueryText();
    QueryPlaces();
    SpanningTiles(QUERY, QUERY_WORDS, QUERY_AT);
  }

  lemma {:induction false} SigOf(words: seq<Token>, at: seq<nat>)
    requires |words| <= |at|
    ensures SigTokens(Spanning(words, at)) == NotBlank(words)
  {
    if |words| > 0 {
      var init := words[..|words| - 1];
      SigOf(init, at);
      assert Spanning(words, at) == Spanning(init, at) + [Spanning(words, at)[|words| - 1]];
      SigSnoc(Spanning(init, at), Spanning(words, at)[|words| - 1]);
    }
  }

  function NotBlank(words: seq<Token>): seq<Token> {
    if |words| == 0 then []
    else NotBlank(words[..|words| - 1]) + if words[|words| - 1].Blank? then [] else [words[|words| - 1]]
  }

  lemma {:induction false} NotBlankConcat(a: seq<Token>, b: seq<Token>)
    ensures NotBlank(a + b) == NotBlank(a) + NotBlank(b)
    decreases |b|
  {
    if |b| == 0 {
      assert a + b == a;
    } else {
      assert (a + b)[..|a + b| - 1] == a + b[..|b| - 1];
      NotBlankConcat(a, b[..|b| - 1]);
    }
  }

  lemma TwoWords(x: Token, y: Token)
    ensures NotBlank([x, y]) == (if x.Blank? then [] else [x]) + (if y.Blank? then [] else [y])
  {
    assert [x, y][..1] == [x] && [x][..0] == [];
    assert NotBlank([x]) == [] + (if x.Blank? then [] else [x]);
  }

  lemma QuerySig()
    ensures SigTokens(QueryTokens()) == [
      Word("SELECT", false, OtherKeyword), Other, Word("FROM", false, From), Word("t", false, NoKeyword),
      Word("AS", false, As), Word("OF", false, Of), Number(Some(5))]
  {
    SigOf(QUERY_WORDS, QUERY_AT);
    var a, b, c := QUERY_WORDS[..4], QUERY_WORDS[4..8], QUERY_WORDS[8..];
    assert QUERY_WORDS == (a + b) + c;
    NotBlankConcat(a + b, c);
    NotBlankConcat(a, b);
    FourWords(a);
    FourWords(b);
    FourWords(c[..4]);
    assert c == c[..4] + [c[4]];
    NotBlankConcat(c[..4], [c[4]]);
    assert [c[4]][..0] == [];
  }

  lemma FourWords(w: seq<Token>)
    requires |w| == 4 && !w[0].Blank? && w[1].Blank? && !w[2].Blank? && w[3].Blank?
    ensures NotBlank(w) == [w[0], w[2]]
  {
    assert w == [w[0], w[1]] + [w[2], w[3]];
    NotBlankConcat([w[0], w[1]], [w[2], w[3]]);
    TwoWords(w[0], w[1]);
    TwoWords(w[2], w[3]);
  }

  lemma QueryUngated()
    ensures !Gated(QUERY)
  {
    forall i: nat, j: nat ensures !AsOfIn(QUERY, i, j) {
      if i < |QUERY| && (QUERY[i] == 'A' || QUERY[i] == 'a') {
        OnlyA(i);
        CommentStops(j);
      }
    }
  }

  lemma CommentStops(j: nat)
    ensures !AsOfIn(QUERY, 16, j)
  {
    assert |QUERY| == 26 && QUERY[18] == '/' && !BlankChar('/');
  }

  lemma OnlyA(i: nat)
    requires i < |QUERY| && (QUERY[i] == 'A' || QUERY[i] == 'a')
    ensures i == 16
  {}

  /** A comment between AS and OF is blank to the finder and not to the gate: the query holds a match of
      the sugar, and is not let through. */
  lemma GateStopsAtComment()
    ensures Tiles(QUERY, QueryTokens(), QUERY_AT)
    ensures |SigTokens(QueryTokens())| == 7
    ensures MatchAt(SigTokens(QueryTokens()), 4) == Match(3, 6, None, "t", AtSnapshot(5))
    ensures !Gated(QUERY)
  {
    QueryTiles();
    QuerySig();
    QueryUngated();
    QueryMatches(SigTokens(QueryTokens()));
  }

  lemma QueryMatches(sig: seq<Token>)
    requires sig == [
      Word("SELECT", false, OtherKeyword), Other, Word("FROM", false, From), Word("t", false, NoKeyword),
      Word("AS", false, As), Word("OF", false, Of), Number(Some(5))]
    ensures MatchAt(sig, 4) == Match(3, 6, None, "t", AtSnapshot(5))
  {
    assert "t"[..0] == [] && LowerText("t"[..0]) == [];
    assert Normal(sig[3]) == [] + [Lower('t')] == "t";
  }

  /** Whatever the catalog would answer, the rewrite leaves such a query as it is. */
  method RewriteComment(resolve: Occurrence -> Option<seq<int>>) returns (res: Outcome)
    ensures res == Untouched
  {
    GateStopsAtComment();
    var out, _, _ := RewriteAsOf(QUERY, QueryTokens(), QUERY_AT, resolve);
    res := out;
  }
}
