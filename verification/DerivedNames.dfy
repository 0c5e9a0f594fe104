/** Names derived from slugs and ids.  Every function takes the output of toLowerCase, so the
    theorems hold whatever a case mapping yields. */
module DerivedNames {
  import opened Common

  predicate Letter(c: char) { 'a' <= c <= 'z' }
  predicate Digit(c: char) { '0' <= c <= '9' }
  predicate Alnum(c: char) { Letter(c) || Digit(c) }
  predicate Hex(c: char) { 'a' <= c <= 'f' || Digit(c) }

  /** /^[a-z][a-z0-9_]{2,62}$/ */
  predicate SafeDatabase(s: string) {
    3 <= |s| <= 63 && Letter(s[0]) && forall i :: 1 <= i < |s| ==> Alnum(s[i]) || s[i] == '_'
  }

  /** /^[a-z0-9][a-z0-9-]{0,62}[a-z0-9]$/ */
  predicate SafeSlug(s: string) {
    2 <= |s| <= 64 && Alnum(s[0]) && Alnum(s[|s| - 1]) && forall i :: 1 <= i < |s| - 1 ==> Alnum(s[i]) || s[i] == '-'
  }

  /** Every character is alphanumeric or the separator. */
  predicate Over(s: string, separator: char) { forall c :: c in s ==> Alnum(c) || c == separator }

  function Take(s: string, n: nat): string { if |s| <= n then s else s[..n] }

  /** .replace(/[^a-f0-9]/g, "") */
  function HexOnly(s: string): (r: string)
    ensures forall c :: c in r ==> Hex(c)
  {
    if s == "" then "" else if Hex(s[0]) then [s[0]] + HexOnly(s[1..]) else HexOnly(s[1..])
  }

  /** .replace(/[^a-z0-9]+/g, "_"): one separator per run. */
  function Collapse(s: string): (r: string)
    ensures Over(r, '_')
  {
    if s == "" then ""
    else if Alnum(s[0]) then [s[0]] + Collapse(s[1..])
    else if |s| > 1 && !Alnum(s[1]) then Collapse(s[1..])
    else "_" + Collapse(s[1..])
  }

  /** .replace(/[^a-z0-9-]/g, "-"): one separator per character. */
  function Dashed(s: string): (r: string)
    ensures Over(r, '-') && |r| == |s|
  {
    if s == "" then "" else [if Alnum(s[0]) || s[0] == '-' then s[0] else '-'] + Dashed(s[1..])
  }

  function StripLeft(s: string, c: char): (r: string)
    ensures |r| <= |s| && (r != "" ==> r[0] != c)
    ensures forall x :: x in r ==> x in s
  {
    if s == "" || s[0] != c then s else StripLeft(s[1..], c)
  }

  function StripRight(s: string, c: char): (r: string)
    ensures r <= s && (r != "" ==> r[|r| - 1] != c)
  {
    if s == "" || s[|s| - 1] != c then s else StripRight(s[..|s| - 1], c)
  }

  function Strip(s: string, c: char): (r: string)
    ensures |r| <= |s| && (forall x :: x in r ==> x in s)
    ensures r != "" ==> r[0] != c && r[|r| - 1] != c
  {
    StripRight(StripLeft(s, c), c)
  }

  function OrElse(s: string, fallback: string): string { if s == "" then fallback else s }

  // -- the restore database -------------------------------------------------------------------

  datatype Outcome = Name(value: string) | InvalidPrefix | InvalidSuffix | InvalidName

  function NormalizedSlug(slug: string): string { OrElse(Strip(Collapse(slug), '_'), "tenant") }

  /** The slug's share of the name. */
  function SlugPart(slug: string, budget: nat): string {
    OrElse(StripRight(Take(NormalizedSlug(slug), budget), '_'), "t")
  }

  /** deterministicRestoreDatabaseName */
  function RestoreDatabaseName(prefix: string, slug: string, tenantId: string): Outcome {
    if !SafeDatabase(prefix) then InvalidPrefix
    else
      var suffix := Take(HexOnly(tenantId), 8);
      if |suffix| != 8 then InvalidSuffix
      else
        var head := prefix + "_restore_";
        var budget := 63 - |head| - 1 - |suffix|;
        if budget < 1 then InvalidPrefix
        else
          var value := head + SlugPart(slug, budget) + "_" + suffix;
          if !SafeDatabase(value) || !(head <= value) then InvalidName else Name(value)
  }

  lemma NormalizedIsOver(slug: string)
    ensures Over(NormalizedSlug(slug), '_')
  {
    var fallback := "tenant";
    assert forall c :: c in fallback ==> Letter(c);
  }

  /** Concatenations of safe pieces behind a safe prefix. */
  lemma SafePieces(prefix: string, middle: string, suffix: string)
    requires SafeDatabase(prefix) && Over(middle, '_') && Over(suffix, '_') && |prefix| + |middle| + |suffix| <= 63
    ensures SafeDatabase(prefix + middle + suffix)
  {
    var value := prefix + middle + suffix;
    forall i | 1 <= i < |value| ensures Alnum(value[i]) || value[i] == '_' {
      if i < |prefix| {
        assert value[i] == prefix[i];
      } else if i < |prefix| + |middle| {
        assert value[i] == middle[i - |prefix|] && value[i] in middle;
      } else {
        assert value[i] == suffix[i - |prefix| - |middle|] && value[i] in suffix;
      }
    }
  }

  lemma OverAppend(a: string, b: string, separator: char)
    requires Over(a, separator) && Over(b, separator)
    ensures Over(a + b, separator)
  {
  }

  lemma HexSuffix(tenantId: string)
    requires |HexOnly(tenantId)| >= 8
    ensures Take(HexOnly(tenantId), 8) == HexOnly(tenantId)[..8] && Over("_" + Take(HexOnly(tenantId), 8), '_')
  {
    var hex := HexOnly(tenantId);
    assert hex[..|hex|] == hex;
    assert Over(hex[..8], '_') by { assert forall c :: c in hex[..8] ==> c in hex; }
    OverAppend("_", hex[..8], '_');
  }

  lemma SlugPartFits(slug: string, budget: nat)
    requires budget >= 1
    ensures 1 <= |SlugPart(slug, budget)| <= budget && Over("_restore_" + SlugPart(slug, budget), '_')
  {
    var normalized, part, word := NormalizedSlug(slug), SlugPart(slug, budget), "_restore_";
    NormalizedIsOver(slug);
    assert forall c :: c in Take(normalized, budget) ==> c in normalized;
    assert Over(part, '_');
    assert Over(word, '_') by { assert forall i :: 0 <= i < |word| ==> Alnum(word[i]) || word[i] == '_'; }
    OverAppend(word, part, '_');
  }

  /** The assembled name. */
  lemma AssembledName(prefix: string, part: string, suffix: string)
    requires SafeDatabase(prefix) && |suffix| == 8 && 1 <= |part| <= 45 - |prefix|
    requires Over("_restore_" + part, '_') && Over("_" + suffix, '_')
    ensures var value := prefix + "_restore_" + part + "_" + suffix;
      SafeDatabase(value) && prefix + "_restore_" <= value && value[|value| - 9..] == "_" + suffix
  {
    var middle, tail := "_restore_" + part, "_" + suffix;
    SafePieces(prefix, middle, tail);
    var value := prefix + "_restore_" + part + "_" + suffix;
    assert value == prefix + middle + tail;
    assert value == prefix + "_restore_" + (part + "_" + suffix);
  }

  lemma RestoreNameFits(prefix: string, slug: string, tenantId: string)
    ensures var r := RestoreDatabaseName(prefix, slug, tenantId);
      && r != InvalidName
      && (r.Name? <==> SafeDatabase(prefix) && |prefix| <= 44 && |HexOnly(tenantId)| >= 8)
      && (r == InvalidSuffix <==> SafeDatabase(prefix) && |HexOnly(tenantId)| < 8)
      && (r.Name? ==>
            && SafeDatabase(r.value) && prefix + "_restore_" <= r.value
            && r.value[|r.value| - 9..] == "_" + HexOnly(tenantId)[..8])
  {
    hide HexOnly, SlugPart;
    var head := prefix + "_restore_";
    assert |head| == |prefix| + 9;
    if SafeDatabase(prefix) && |prefix| <= 44 && |HexOnly(tenantId)| >= 8 {
      var budget := 45 - |prefix|;
      HexSuffix(tenantId);
      SlugPartFits(slug, budget);
      var suffix := Take(HexOnly(tenantId), 8);
      AssembledName(prefix, SlugPart(slug, budget), suffix);
      hide SafeDatabase, Over;
      assert 63 - |head| - 1 - |suffix| == budget;
    }
  }

  /** For every slug, every safe prefix of at most 44 characters and every tenant id with eight hex
      digits the name fits, keeps prefix and suffix, and the final guard never throws; in every other
      case the early guards throw. */
  lemma RestoreNameAlwaysFits(prefix: string, slug: string, tenantId: string)
    ensures var r := RestoreDatabaseName(prefix, slug, tenantId);
      && r != InvalidName
      && (r.Name? <==>
            && 3 <= |prefix| <= 44 && 'a' <= prefix[0] <= 'z' && |HexOnly(tenantId)| >= 8
            && forall i :: 1 <= i < |prefix| ==>
                 'a' <= prefix[i] <= 'z' || '0' <= prefix[i] <= '9' || prefix[i] == '_')
      && (r == InvalidSuffix <==>
            && 3 <= |prefix| <= 63 && 'a' <= prefix[0] <= 'z' && |HexOnly(tenantId)| < 8
            && forall i :: 1 <= i < |prefix| ==>
                 'a' <= prefix[i] <= 'z' || '0' <= prefix[i] <= '9' || prefix[i] == '_')
      && (r.Name? ==>
            && |r.value| <= 63 && prefix + "_restore_" <= r.value
            && (forall i :: 0 <= i < |r.value| ==>
                  'a' <= r.value[i] <= 'z' || '0' <= r.value[i] <= '9' || r.value[i] == '_')
            && r.value[|r.value| - 9..] == "_" + HexOnly(tenantId)[..8])
  {
    RestoreNameFits(prefix, slug, tenantId);
    hide RestoreDatabaseName, HexOnly;
  }

  // -- the production slug --------------------------------------------------------------------

  function Token(conversionId: string): string { OrElse(Take(HexOnly(conversionId), 8), "00000000") }

  /** The slug's share: at most maxBase characters, starting with an alphanumeric one. */
  function BasePart(trialSlug: string, maxBase: nat): string {
    var base := Strip(Dashed(trialSlug), '-');
    var cut := if |base| > maxBase then StripRight(base[..maxBase], '-') else base;
    if |cut| < 2 then "trial" else cut
  }

  /** productionSlugForConversion, from the trimmed, lower-case slug. */
  function ProductionSlug(trialSlug: string, conversionId: string): string {
    var suffix := "prod-" + Token(conversionId);
    BasePart(trialSlug, 64 - |suffix| - 1) + "-" + suffix
  }

  lemma TokenFits(conversionId: string)
    ensures 1 <= |Token(conversionId)| <= 8 && Over("prod-" + Token(conversionId), '-')
    ensures Alnum(Token(conversionId)[|Token(conversionId)| - 1])
  {
    var hex, token, zeros, word := HexOnly(conversionId), Token(conversionId), "00000000", "prod-";
    assert forall c :: c in zeros ==> Hex(c);
    assert forall c :: c in Take(hex, 8) ==> c in hex;
    assert forall c :: c in token ==> Hex(c);
    assert token[|token| - 1] in token;
    assert Over(word, '-') by { assert forall i :: 0 <= i < |word| ==> Alnum(word[i]) || word[i] == '-'; }
    OverAppend(word, token, '-');
  }

  lemma BasePartFits(trialSlug: string, maxBase: nat)
    requires maxBase >= 5
    ensures 2 <= |BasePart(trialSlug, maxBase)| <= maxBase
    ensures Over(BasePart(trialSlug, maxBase), '-') && Alnum(BasePart(trialSlug, maxBase)[0])
  {
    var base := Strip(Dashed(trialSlug), '-');
    var cut := if |base| > maxBase then StripRight(base[..maxBase], '-') else base;
    var trial := "trial";
    assert Over(trial, '-') by { assert forall i :: 0 <= i < |trial| ==> Alnum(trial[i]); }
    if |cut| >= 2 {
      assert cut <= base;
      assert Over(cut, '-') by { assert forall c :: c in cut ==> c in base; }
      assert cut[0] in cut && cut[0] == base[0];
    }
  }

  /** The production slug always has 2 to 64 characters and satisfies SAFE_SLUG: a-z, 0-9 and dashes, no dash
      at either end. */
  lemma ProductionSlugAlwaysFits(trialSlug: string, conversionId: string)
    ensures var r := ProductionSlug(trialSlug, conversionId);
      && 2 <= |r| <= 64 && r[0] != '-' && r[|r| - 1] != '-'
      && forall i :: 0 <= i < |r| ==> 'a' <= r[i] <= 'z' || '0' <= r[i] <= '9' || r[i] == '-'
  {
    TokenFits(conversionId);
    var suffix := "prod-" + Token(conversionId);
    var maxBase := 64 - |suffix| - 1;
    BasePartFits(trialSlug, maxBase);
    var part := BasePart(trialSlug, maxBase);
    var r := part + "-" + suffix;
    OverAppend(part, "-", '-');
    OverAppend(part + "-", suffix, '-');
    hide Over, HexOnly, Dashed, Strip, StripRight;
    assert r == ProductionSlug(trialSlug, conversionId);
    SlugOf(r);
  }

  lemma SlugOf(r: string)
    requires Over(r, '-') && 2 <= |r| <= 64 && Alnum(r[0]) && Alnum(r[|r| - 1])
    ensures SafeSlug(r)
  {
    forall i | 1 <= i < |r| - 1 ensures Alnum(r[i]) || r[i] == '-' { assert r[i] in r; }
  }

  // -- nothing is lost without need -----------------------------------------------------------

  predicate AllAlnum(s: string) { forall i :: 0 <= i < |s| ==> Alnum(s[i]) }

  lemma {:induction false} CollapseKeeps(s: string)
    requires AllAlnum(s)
    ensures Collapse(s) == s
  {
    if s != "" {
      assert AllAlnum(s[1..]);
      CollapseKeeps(s[1..]);
      assert s == [s[0]] + s[1..];
    }
  }

  lemma {:induction false} DashedKeeps(s: string)
    requires forall i :: 0 <= i < |s| ==> Alnum(s[i]) || s[i] == '-'
    ensures Dashed(s) == s
  {
    if s != "" {
      DashedKeeps(s[1..]);
      assert s == [s[0]] + s[1..];
    }
  }

  /** An alphanumeric slug within the budget appears unchanged in the restore database name. */
  lemma ShortSlugSurvives(prefix: string, slug: string, tenantId: string)
    requires SafeDatabase(prefix) && |HexOnly(tenantId)| >= 8 && AllAlnum(slug) && 1 <= |slug| <= 45 - |prefix|
    ensures RestoreDatabaseName(prefix, slug, tenantId) ==
      Name(prefix + "_restore_" + slug + "_" + HexOnly(tenantId)[..8])
  {
    CollapseKeeps(slug);
    assert slug[0] != '_' && slug[|slug| - 1] != '_';
    assert Strip(slug, '_') == slug;
    assert SlugPart(slug, 45 - |prefix|) == slug;
    HexSuffix(tenantId);
    RestoreNameFits(prefix, slug, tenantId);
    var head := prefix + "_restore_";
    assert 63 - |head| - 1 - 8 == 45 - |prefix|;
    hide SafeDatabase, SlugPart, HexOnly;
  }

  /** A valid trial slug within the budget is the beginning of its production slug. */
  lemma SafeSlugSurvives(trialSlug: string, conversionId: string)
    requires SafeSlug(trialSlug) && |trialSlug| <= 58 - |Token(conversionId)|
    ensures ProductionSlug(trialSlug, conversionId) == trialSlug + "-prod-" + Token(conversionId)
  {
    DashedKeeps(trialSlug);
    assert Strip(trialSlug, '-') == trialSlug;
    var suffix := "prod-" + Token(conversionId);
    assert |suffix| == 5 + |Token(conversionId)|;
    assert BasePart(trialSlug, 64 - |suffix| - 1) == trialSlug;
    assert trialSlug + "-" + suffix == trialSlug + "-prod-" + Token(conversionId);
  }

  // -- the provisioned database ---------------------------------------------------------------

  /** .replace(/-/g, "_").replace(/[^a-z0-9_]/g, "") */
  function Underscored(s: string): string {
    if s == "" then ""
    else if s[0] == '-' || s[0] == '_' then "_" + Underscored(s[1..])
    else if Alnum(s[0]) then [s[0]] + Underscored(s[1..])
    else Underscored(s[1..])
  }

  /** expectedDatabaseName */
  function ProvisionDatabaseName(prefix: string, slug: string, tenantId: string): string {
    Take(prefix + "_" + Underscored(slug) + "_" + OrElse(Take(HexOnly(tenantId), 8), "tenant"), 63)
  }

  lemma {:induction false} UnderscoredAppend(a: string, b: string)
    ensures Underscored(a + b) == Underscored(a) + Underscored(b)
  {
    if a == "" {
      assert a + b == b;
    } else {
      UnderscoredAppend(a[1..], b);
      assert (a + b)[1..] == a[1..] + b;
    }
  }

  /** When prefix and slug fill the 63 characters, two slugs that differ only beyond them name one
      database, whatever their tenants: the unique suffix is cut off. */
  lemma LongSlugsShareAName(prefix: string, common: string, rest: string, rest': string, tenantId: string,
      tenantId': string)
    requires |prefix| + 1 + |Underscored(common)| >= 63
    ensures ProvisionDatabaseName(prefix, common + rest, tenantId) ==
      ProvisionDatabaseName(prefix, common + rest', tenantId')
  {
    UnderscoredAppend(common, rest);
    UnderscoredAppend(common, rest');
    var kept := (prefix + "_" + Underscored(common))[..63];
    TakesKept(prefix, common, rest, tenantId);
    TakesKept(prefix, common, rest', tenantId');
  }

  lemma TakesKept(prefix: string, common: string, rest: string, tenantId: string)
    requires |prefix| + 1 + |Underscored(common)| >= 63
    ensures ProvisionDatabaseName(prefix, common + rest, tenantId) == (prefix + "_" + Underscored(common))[..63]
  {
    UnderscoredAppend(common, rest);
    var head := prefix + "_" + Underscored(common);
    var tail := Underscored(rest) + "_" + OrElse(Take(HexOnly(tenantId), 8), "tenant");
    assert prefix + "_" + Underscored(common + rest) + "_" + OrElse(Take(HexOnly(tenantId), 8), "tenant") ==
      head + tail;
    assert (head + tail)[..63] == head[..63];
  }

  /** With the same prefix and slug the names of two tenants differ exactly when their suffixes differ
      before the cut. */
  lemma {:induction false} NamesDifferIff(prefix: string, slug: string, tenantId: string, tenantId': string)
    requires |HexOnly(tenantId)| >= 8 && |HexOnly(tenantId')| >= 8
    ensures var head := |prefix| + |Underscored(slug)| + 2;
      var kept := if head >= 63 then 0 else if head >= 55 then 63 - head else 8;
      ProvisionDatabaseName(prefix, slug, tenantId) == ProvisionDatabaseName(prefix, slug, tenantId')
      <==> HexOnly(tenantId)[..kept] == HexOnly(tenantId')[..kept]
  {
    var head := prefix + "_" + Underscored(slug) + "_";
    var s, s' := HexOnly(tenantId)[..8], HexOnly(tenantId')[..8];
    var n := |head|;
    var kept := if n >= 63 then 0 else if n >= 55 then 63 - n else 8;
    TakeOfAppend(head, s, kept);
    TakeOfAppend(head, s', kept);
    HexSuffix(tenantId);
    HexSuffix(tenantId');
    assert s[..kept] == HexOnly(tenantId)[..kept] && s'[..kept] == HexOnly(tenantId')[..kept];
    if n < 63 {
      assert (head + s[..kept])[n..] == s[..kept] && (head + s'[..kept])[n..] == s'[..kept];
    }
  }

  lemma TakeOfAppend(head: string, s: string, kept: nat)
    requires |s| == 8 && kept == if |head| >= 63 then 0 else if |head| >= 55 then 63 - |head| else 8
    ensures Take(head + s, 63) == if |head| >= 63 then head[..63] else head + s[..kept]
  {
  }

  // -- what every name is made of -----------------------------------------------------------------

  /** The words of a slug between the gaps around them. */
  function Interleave(words: seq<string>, gaps: seq<string>): string
    requires |gaps| == |words| + 1
  {
    if words == [] then gaps[0] else gaps[0] + words[0] + Interleave(words[1..], gaps[1..])
  }

  function JoinWith(words: seq<string>, separator: char): string {
    if words == [] then ""
    else if |words| == 1 then words[0]
    else words[0] + [separator] + JoinWith(words[1..], separator)
  }

  /** Nonempty runs of a-z and 0-9, apart from each other by at least one other character. */
  predicate Words(words: seq<string>, gaps: seq<string>) {
    && |gaps| == |words| + 1
    && (forall i :: 0 <= i < |words| ==>
          words[i] != "" && forall c :: c in words[i] ==> 'a' <= c <= 'z' || '0' <= c <= '9')
    && (forall i :: 0 <= i < |gaps| ==> forall c :: c in gaps[i] ==> !('a' <= c <= 'z' || '0' <= c <= '9'))
    && (forall i :: 1 <= i < |gaps| - 1 ==> gaps[i] != "")
  }

  lemma WordsTail(words: seq<string>, gaps: seq<string>)
    requires Words(words, gaps) && words != []
    ensures Words(words[1..], gaps[1..])
  {
  }

  /** Every slug is made of words and gaps. */
  lemma {:induction false} SlugHasWords(slug: string) returns (words: seq<string>, gaps: seq<string>)
    ensures Words(words, gaps) && Interleave(words, gaps) == slug
  {
    if slug == "" {
      words, gaps := [], [""];
    } else {
      var c, tail := slug[0], slug[1..];
      words, gaps := SlugHasWords(tail);
      assert slug == [c] + tail;
      if !Alnum(c) {
        var gaps' := [[c] + gaps[0]] + gaps[1..];
        assert gaps'[1..] == gaps[1..];
        gaps := gaps';
      } else if gaps[0] == "" && words != [] {
        var words' := [[c] + words[0]] + words[1..];
        assert words'[1..] == words[1..];
        assert forall x :: x in words'[0] ==> x == c || x in words[0];
        words := words';
      } else {
        var words', gaps' := [[c]] + words, [""] + gaps;
        assert words'[1..] == words && gaps'[1..] == gaps;
        words, gaps := words', gaps';
      }
    }
  }

  lemma {:induction false} CollapseWord(word: string, rest: string)
    requires forall c :: c in word ==> Alnum(c)
    ensures Collapse(word + rest) == word + Collapse(rest)
  {
    if word == "" {
      assert word + rest == rest;
    } else {
      CollapseWord(word[1..], rest);
      assert (word + rest)[1..] == word[1..] + rest && word == [word[0]] + word[1..];
    }
  }

  lemma {:induction false} CollapseGap(gap: string, rest: string)
    requires (forall c :: c in gap ==> !Alnum(c)) && (rest == "" || Alnum(rest[0]))
    ensures Collapse(gap + rest) == (if gap == "" then "" else "_") + Collapse(rest)
  {
    if gap == "" {
      assert gap + rest == rest;
    } else {
      CollapseGap(gap[1..], rest);
      assert (gap + rest)[1..] == gap[1..] + rest;
      if |gap| > 1 { assert gap[1] in gap; }
      assert gap[0] in gap;
    }
  }

  function Edge(gap: string): string { if gap == "" then "" else "_" }

  /** One gap and one word before the rest. */
  lemma CollapseFirst(gap: string, word: string, rest: string)
    requires (forall c :: c in gap ==> !Alnum(c)) && word != "" && forall c :: c in word ==> Alnum(c)
    ensures Collapse(gap + word + rest) == Edge(gap) + word + Collapse(rest)
  {
    assert word[0] in word;
    assert gap + word + rest == gap + (word + rest) && (word + rest)[0] == word[0];
    CollapseGap(gap, word + rest);
    CollapseWord(word, rest);
    hide Collapse;
    assert Edge(gap) + word + Collapse(rest) == Edge(gap) + (word + Collapse(rest));
  }

  lemma Regroup(a: string, b: string, c: string, d: string, e: string)
    ensures a + b + (c + (d + e)) == a + (b + c + d + e)
  {
  }

  lemma {:induction false} CollapseInterleave(words: seq<string>, gaps: seq<string>)
    requires Words(words, gaps)
    ensures Collapse(Interleave(words, gaps)) ==
      Edge(gaps[0]) + (if words == [] then "" else JoinWith(words, '_') + Edge(gaps[|gaps| - 1]))
  {
    if words == [] {
      CollapseGap(gaps[0], "");
      assert gaps[0] + "" == gaps[0];
    } else {
      WordsTail(words, gaps);
      CollapseInterleave(words[1..], gaps[1..]);
      CollapseFirst(gaps[0], words[0], Interleave(words[1..], gaps[1..]));
      assert |words| > 1 ==> gaps[1] != "";
      hide Collapse, Words, Interleave;
      if |words| > 1 {
        Regroup(Edge(gaps[0]), words[0], "_", JoinWith(words[1..], '_'), Edge(gaps[|gaps| - 1]));
      } else {
        Regroup(Edge(gaps[0]), words[0], "", "", Edge(gaps[1]));
      }
    }
  }

  lemma {:induction false} JoinEnds(words: seq<string>, gaps: seq<string>)
    requires Words(words, gaps) && words != []
    ensures var joined := JoinWith(words, '_'); 
      joined != "" && Alnum(joined[0]) && Alnum(joined[|joined| - 1]) && joined[0] != '_' && joined[|joined| - 1] != '_'
  {
    assert words[0][0] in words[0] && words[0][|words[0]| - 1] in words[0];
    if |words| > 1 {
      WordsTail(words, gaps);
      JoinEnds(words[1..], gaps[1..]);
    }
  }

  lemma {:induction false} StripLeftPast(left: string, rest: string, c: char)
    requires (forall x :: x in left ==> x == c) && rest != "" && rest[0] != c
    ensures StripLeft(left + rest, c) == rest
  {
    if left == "" {
      assert left + rest == rest;
    } else {
      assert left[0] in left && forall x :: x in left[1..] ==> x in left;
      StripLeftPast(left[1..], rest, c);
      assert (left + rest)[1..] == left[1..] + rest;
    }
  }

  lemma {:induction false} StripRightPast(rest: string, right: string, c: char)
    requires (forall x :: x in right ==> x == c) && rest != "" && rest[|rest| - 1] != c
    ensures StripRight(rest + right, c) == rest
  {
    if right == "" {
      assert rest + right == rest;
    } else {
      var init := right[..|right| - 1];
      assert right[|right| - 1] in right && forall x :: x in init ==> x in right;
      StripRightPast(rest, init, c);
      assert (rest + right)[..|rest + right| - 1] == rest + init;
    }
  }

  lemma StripBetween(left: string, core: string, right: string, c: char)
    requires (forall x :: x in left ==> x == c) && (forall x :: x in right ==> x == c)
    requires core != "" && core[0] != c && core[|core| - 1] != c
    ensures Strip(left + core + right, c) == core
  {
    assert left + core + right == left + (core + right);
    StripLeftPast(left, core + right, c);
    StripRightPast(core, right, c);
  }

  /** What trimming one character on the right leaves: a prefix not ending in it, all the rest being it. */
  lemma {:induction false} StripRightMeans(s: string, c: char)
    ensures var r := StripRight(s, c);
      && r <= s && (r != "" ==> r[|r| - 1] != c) && forall k :: |r| <= k < |s| ==> s[k] == c
  {
    if s != "" && s[|s| - 1] == c { StripRightMeans(s[..|s| - 1], c); }
  }

  lemma {:induction false} StripLeftAll(s: string, c: char)
    requires forall x :: x in s ==> x == c
    ensures StripLeft(s, c) == ""
  {
    if s != "" {
      assert s[0] in s && forall x :: x in s[1..] ==> x in s;
      StripLeftAll(s[1..], c);
    }
  }

  lemma NormalizedMeans(words: seq<string>, gaps: seq<string>)
    requires Words(words, gaps)
    ensures NormalizedSlug(Interleave(words, gaps)) == if words == [] then "tenant" else JoinWith(words, '_')
  {
    CollapseInterleave(words, gaps);
    if words == [] {
      StripLeftAll(Collapse(Interleave(words, gaps)), '_');
    } else {
      JoinEnds(words, gaps);
      StripBetween(Edge(gaps[0]), JoinWith(words, '_'), Edge(gaps[|gaps| - 1]), '_');
      assert Edge(gaps[0]) + (JoinWith(words, '_') + Edge(gaps[|gaps| - 1])) ==
        Edge(gaps[0]) + JoinWith(words, '_') + Edge(gaps[|gaps| - 1]);
    }
  }

  /** The restore database of any slug: prefix and suffix around the slug's words joined by single underscores
      when they fit, and otherwise around the longest beginning of that within the budget that does not end
      in an underscore.  A slug without words counts as `tenant`. */
  lemma RestoreNameMeans(prefix: string, words: seq<string>, gaps: seq<string>, tenantId: string)
    returns (part: string)
    requires SafeDatabase(prefix) && |prefix| <= 44 && |HexOnly(tenantId)| >= 8 && Words(words, gaps)
    ensures var joined, budget := if words == [] then "tenant" else JoinWith(words, '_'), 45 - |prefix|;
      && RestoreDatabaseName(prefix, Interleave(words, gaps), tenantId) ==
           Name(prefix + "_restore_" + part + "_" + HexOnly(tenantId)[..8])
      && part <= joined && 1 <= |part| <= budget && part[|part| - 1] != '_'
      && (forall k :: |part| <= k < |joined| && k < budget ==> joined[k] == '_')
      && (|joined| <= budget ==> part == joined)
  {
    hide *;
    assert |gaps| == |words| + 1 by { WordsCount(words, gaps); }
    var slug := Interleave(words, gaps);
    NormalizedMeans(words, gaps);
    if words != [] { JoinEnds(words, gaps); }
    NameOfSlug(prefix, slug, tenantId);
    part := SlugPart(slug, 45 - |prefix|);
    PartOfSlug(slug, 45 - |prefix|);
  }

  lemma WordsCount(words: seq<string>, gaps: seq<string>)
    requires Words(words, gaps)
    ensures |gaps| == |words| + 1
  {
  }

  lemma NameOfSlug(prefix: string, slug: string, tenantId: string)
    requires SafeDatabase(prefix) && |prefix| <= 44 && |HexOnly(tenantId)| >= 8
    ensures RestoreDatabaseName(prefix, slug, tenantId) ==
      Name(prefix + "_restore_" + SlugPart(slug, 45 - |prefix|) + "_" + HexOnly(tenantId)[..8])
  {
    HexSuffix(tenantId);
    RestoreNameFits(prefix, slug, tenantId);
    assert |prefix + "_restore_"| == |prefix| + 9;
    hide SafeDatabase, SlugPart, HexOnly;
  }

  lemma PartOfSlug(slug: string, budget: nat)
    requires budget >= 1 && NormalizedSlug(slug) != "" && NormalizedSlug(slug)[0] != '_'
    requires NormalizedSlug(slug)[|NormalizedSlug(slug)| - 1] != '_'
    ensures var whole, part := NormalizedSlug(slug), SlugPart(slug, budget);
      && part <= whole && 1 <= |part| <= budget && part[|part| - 1] != '_'
      && (forall k :: |part| <= k < |whole| && k < budget ==> whole[k] == '_')
      && (|whole| <= budget ==> part == whole)
  {
    var cut := Take(NormalizedSlug(slug), budget);
    StripRightMeans(cut, '_');
    hide NormalizedSlug;
    assert cut[0] != '_';
    if |NormalizedSlug(slug)| <= budget { assert StripRight(cut, '_') == cut; }
  }

  // -- the other filters ------------------------------------------------------------------------------

  /** What the suffixes keep of an id: its characters 0-9 and a-f, in their order. */
  lemma {:induction false} HexOnlyMeans(s: string, i: nat)
    requires i < |s|
    ensures HexOnly(s) ==
      HexOnly(s[..i]) + (if '0' <= s[i] <= '9' || 'a' <= s[i] <= 'f' then [s[i]] else "") + HexOnly(s[i + 1..])
    ensures HexOnly("") == ""
  {
    if i == 0 {
      assert s[..0] == "";
    } else {
      HexOnlyMeans(s[1..], i - 1);
      assert s[1..][..i - 1] == s[..i][1..] && s[1..][i..] == s[i + 1..];
    }
  }

  /** A production slug's characters: other than a-z, 0-9 and dashes they become dashes, one by one. */
  lemma {:induction false} DashedMeans(s: string, i: nat)
    requires i < |s|
    ensures |Dashed(s)| == |s|
    ensures Dashed(s)[i] == if 'a' <= s[i] <= 'z' || '0' <= s[i] <= '9' then s[i] else '-'
  {
    if i > 0 { DashedMeans(s[1..], i - 1); }
  }

  /** A provisioned database's slug: dashes become underscores, other characters are dropped. */
  lemma {:induction false} UnderscoredMeans(s: string, i: nat)
    requires i < |s|
    ensures Underscored(s) == Underscored(s[..i])
      + (if 'a' <= s[i] <= 'z' || '0' <= s[i] <= '9' then [s[i]] else if s[i] in {'-', '_'} then "_" else "")
      + Underscored(s[i + 1..])
    ensures Underscored("") == ""
  {
    UnderscoredAppend(s[..i], s[i..]);
    assert s == s[..i] + s[i..] && s[i..][1..] == s[i + 1..];
  }

  /** The provisioned database's name: the first 63 characters of prefix, slug and suffix. */
  lemma ProvisionNameMeans(prefix: string, slug: string, tenantId: string)
    ensures var name, hex := ProvisionDatabaseName(prefix, slug, tenantId), HexOnly(tenantId);
      var suffix := if hex == "" then "tenant" else if |hex| <= 8 then hex else hex[..8];
      var whole := prefix + "_" + Underscored(slug) + "_" + suffix;
      name == if |whole| <= 63 then whole else whole[..63]
  {
  }

  lemma DashedAppend(a: string, b: string)
    ensures Dashed(a + b) == Dashed(a) + Dashed(b)
  {
    hide Dashed;
    forall i | 0 <= i < |a + b| ensures Dashed(a + b)[i] == (Dashed(a) + Dashed(b))[i] {
      DashedMeans(a + b, i);
      if i < |a| { DashedMeans(a, i); } else { DashedMeans(b, i - |a|); }
    }
  }

  lemma DashedGap(gap: string)
    requires forall c :: c in gap ==> !Alnum(c)
    ensures forall c :: c in Dashed(gap) ==> c == '-'
  {
    forall i | 0 <= i < |gap| ensures Dashed(gap)[i] == '-' {
      assert gap[i] in gap;
      DashedMeans(gap, i);
    }
  }

  /** The base of a production slug: what lies between the first and the last alphanumeric character, cut
      to the budget so that it does not end in a dash. */
  lemma BaseOf(left: string, core: string, right: string)
    requires (forall c :: c in left || c in right ==> !Alnum(c))
    requires core != "" && Alnum(core[0]) && Alnum(core[|core| - 1])
    ensures Strip(Dashed(left + core + right), '-') == Dashed(core)
  {
    DashedAppend(left + core, right);
    DashedAppend(left, core);
    DashedGap(left);
    DashedGap(right);
    DashedMeans(core, 0);
    DashedMeans(core, |core| - 1);
    var l, d, r := Dashed(left), Dashed(core), Dashed(right);
    assert Dashed(left + core + right) == l + d + r;
    hide Dashed, Strip;
    StripBetween(l, d, r, '-');
  }

  lemma NoBase(gap: string)
    requires forall c :: c in gap ==> !Alnum(c)
    ensures Strip(Dashed(gap), '-') == ""
  {
    DashedGap(gap);
    StripLeftAll(Dashed(gap), '-');
  }

  /** The production slug of any trial slug: the dashed core when it fits, otherwise its longest beginning
      within the budget that does not end in a dash; `trial` for what has fewer than two characters or no
      alphanumeric one; then `-prod-` and up to eight hex digits of the conversion, or eight zeros. */
  lemma ProductionSlugMeans(left: string, core: string, right: string, conversionId: string) returns (part: string)
    requires forall c :: c in left || c in right ==> !('a' <= c <= 'z' || '0' <= c <= '9')
    requires core != "" ==> Alnum(core[0]) && Alnum(core[|core| - 1])
    ensures var hex := HexOnly(conversionId);
      var token := if hex == "" then "00000000" else if |hex| <= 8 then hex else hex[..8];
      var base, budget := Dashed(core), 58 - |token|;
      && ProductionSlug(left + core + right, conversionId) == (if |part| < 2 then "trial" else part) + "-prod-" + token
      && part <= base && |part| <= budget && (part != "" ==> part[|part| - 1] != '-')
      && (forall k :: |part| <= k < |base| && k < budget ==> base[k] == '-')
      && (|base| <= budget ==> part == base)
  {
    hide *;
    var slug := left + core + right;
    StrippedCore(left, core, right);
    TokenIs(conversionId);
    AssembledSlug(slug, conversionId);
    part := BasePartMeans(slug, 58 - |Token(conversionId)|);
  }

  lemma TokenIs(conversionId: string)
    ensures var hex := HexOnly(conversionId);
      Token(conversionId) == if hex == "" then "00000000" else if |hex| <= 8 then hex else hex[..8]
  {
  }

  lemma StrippedCore(left: string, core: string, right: string)
    requires forall c :: c in left || c in right ==> !('a' <= c <= 'z' || '0' <= c <= '9')
    requires core != "" ==> Alnum(core[0]) && Alnum(core[|core| - 1])
    ensures Strip(Dashed(left + core + right), '-') == Dashed(core)
  {
    if core == "" {
      assert left + core + right == left + right;
      NoBase(left + right);
    } else {
      BaseOf(left, core, right);
    }
  }

  /** Every slug has such a core. */
  lemma {:induction false} SlugHasCore(slug: string) returns (left: string, core: string, right: string)
    ensures slug == left + core + right
    ensures forall c :: c in left || c in right ==> !('a' <= c <= 'z' || '0' <= c <= '9')
    ensures core != "" ==> Alnum(core[0]) && Alnum(core[|core| - 1])
    decreases |slug|
  {
    left, core, right := "", slug, "";
    if slug != "" && !Alnum(slug[0]) {
      left, core, right := SlugHasCore(slug[1..]);
      left := [slug[0]] + left;
    } else if slug != "" && !Alnum(slug[|slug| - 1]) {
      left, core, right := SlugHasCore(slug[..|slug| - 1]);
      right := right + [slug[|slug| - 1]];
    }
  }

  lemma AssembledSlug(slug: string, conversionId: string)
    ensures |Token(conversionId)| <= 8
    ensures ProductionSlug(slug, conversionId) ==
      BasePart(slug, 58 - |Token(conversionId)|) + "-prod-" + Token(conversionId)
  {
    TokenFits(conversionId);
    hide BasePart, Token;
    var token := Token(conversionId);
    var suffix := "prod-" + token;
    assert 64 - |suffix| - 1 == 58 - |token|;
    assert BasePart(slug, 58 - |token|) + "-" + suffix == BasePart(slug, 58 - |token|) + "-prod-" + token;
  }

  lemma BasePartMeans(slug: string, budget: nat) returns (part: string)
    ensures var base := Strip(Dashed(slug), '-');
      && BasePart(slug, budget) == (if |part| < 2 then "trial" else part)
      && part <= base && |part| <= budget && (part != "" ==> part[|part| - 1] != '-')
      && (forall k :: |part| <= k < |base| && k < budget ==> base[k] == '-')
      && (|base| <= budget ==> part == base)
  {
    var base := Strip(Dashed(slug), '-');
    hide Dashed, Strip;
    if |base| > budget { StripRightMeans(base[..budget], '-'); }
    part := if |base| > budget then StripRight(base[..budget], '-') else base;
  }
}
