/** The names under which a model's price may be listed: the worklist that strips one suffix,
    prefix or variant at a time, starting from the normalised model name. */
module PricingAliases {
  import opened Wrappers
  import opened Text

  // ---------- Normal names ----------

  // Lower case without surrounding space: how names are compared.
  function Norm(s: string): string {
    Trim(Lower(s))
  }

  function ReplacedChar(c: char): char {
    if c == '_' || c == ' ' then '-' else if c == '\\' then '/' else c
  }

  function Replaced(s: string): string {
    seq(|s|, i requires 0 <= i < |s| => ReplacedChar(s[i]))
  }

  predicate HasDoubleDash(s: string) {
    exists i :: 0 <= i < |s| - 1 && s[i] == '-' && s[i + 1] == '-'
  }

  // Every two dashes in a row made one, from the left.
  function Halved(s: string): (r: string)
    ensures |r| <= |s|
  {
    if |s| < 2 then s
    else if s[0] == '-' && s[1] == '-' then "-" + Halved(s[2..])
    else [s[0]] + Halved(s[1..])
  }

  lemma {:induction false} HalvedIsShorter(s: string)
    requires HasDoubleDash(s)
    ensures |Halved(s)| < |s|
    decreases |s|
  {
    if !(s[0] == '-' && s[1] == '-') {
      var i :| 0 <= i < |s| - 1 && s[i] == '-' && s[i + 1] == '-';
      assert s[1..][i - 1] == '-' && s[1..][i] == '-';
      HalvedIsShorter(s[1..]);
    }
  }

  function SingleDashes(s: string): string
    decreases |s|
  {
    if HasDoubleDash(s) then
      HalvedIsShorter(s);
      SingleDashes(Halved(s))
    else s
  }

  // The loop that halves dashes until no two are left in a row.
  method CollapseDashes(s: string) returns (r: string)
    ensures r == SingleDashes(s)
    ensures !HasDoubleDash(r)
  {
    r := s;
    while HasDoubleDash(r)
      invariant SingleDashes(r) == SingleDashes(s)
      decreases |r|
    {
      HalvedIsShorter(r);
      r := Halved(r);
    }
  }

  function TrimDashes(s: string): string {
    if s != [] && s[0] == '-' then TrimDashes(s[1..])
    else if s != [] && s[|s| - 1] == '-' then TrimDashes(s[..|s| - 1])
    else s
  }

  // A model's or an upstream's name as prices are looked up by it.
  function NormalAlias(name: string): string {
    TrimDashes(SingleDashes(Replaced(Norm(name))))
  }

  // The key of a price for one upstream alone.
  function ScopedKey(upstream: string, model: string): string {
    var u, m := NormalAlias(upstream), NormalAlias(model);
    if u == "" || m == "" then "" else "provider::" + u + "::" + m
  }

  // ---------- The stripping rules ----------

  predicate HasSuffix(s: string, suffix: string) {
    |suffix| <= |s| && s[|s| - |suffix|..] == suffix
  }

  predicate HasPrefix(s: string, prefix: string) {
    |prefix| <= |s| && s[..|prefix|] == prefix
  }

  function LastIndex(s: string, c: char): (i: int)
    ensures -1 <= i < |s|
    ensures i >= 0 ==> s[i] == c
    ensures forall j :: i < j < |s| ==> s[j] != c
  {
    if s == [] then -1
    else if s[|s| - 1] == c then |s| - 1
    else LastIndex(s[..|s| - 1], c)
  }

  function Split(s: string, sep: char): (parts: seq<string>)
    ensures parts != []
  {
    if s == [] then [[]]
    else
      var rest := Split(s[1..], sep);
      if s[0] == sep then [[]] + rest else [[s[0]] + rest[0]] + rest[1..]
  }

  function Join(parts: seq<string>, sep: char): string {
    if parts == [] then []
    else if |parts| == 1 then parts[0]
    else parts[0] + [sep] + Join(parts[1..], sep)
  }

  predicate IsDigits(s: string) {
    s != [] && forall i :: 0 <= i < |s| ==> '0' <= s[i] <= '9'
  }

  // What follows the last slash, if anything does.
  function AliasTail(model: string): string {
    var i := LastIndex(model, '/');
    if i < 0 || i >= |model| - 1 then "" else model[i + 1..]
  }

  // Drops a date written as -2024-01-31 or as -20240131.
  function TrimSnapshotSuffix(model: string): Option<string> {
    var parts := Split(model, '-');
    var n := |parts|;
    if n >= 4 && |parts[n - 3]| == 4 && |parts[n - 2]| == 2 && |parts[n - 1]| == 2
       && IsDigits(parts[n - 3]) && IsDigits(parts[n - 2]) && IsDigits(parts[n - 1]) then
      Some(Join(parts[..n - 3], '-'))
    else if n >= 2 && |parts[n - 1]| == 8 && IsDigits(parts[n - 1]) then
      Some(Join(parts[..n - 1], '-'))
    else None
  }

  function TrimVariantSuffix(model: string): Option<string> {
    var i := LastIndex(model, ':');
    if i > 0 then Some(model[..i]) else None
  }

  const RELEASE_SUFFIXES := ["-chat-latest", "-thinking", "-preview", "-latest", "-exp"]
  const EFFORT_SUFFIXES := ["-high", "-medium", "-low", "-max"]

  function TrimmedBy(model: string, suffixes: seq<string>): seq<string> {
    if suffixes == [] then []
    else
      TrimmedBy(model, suffixes[..|suffixes| - 1])
      + (var suffix := suffixes[|suffixes| - 1];
         if HasSuffix(model, suffix) then [model[..|model| - |suffix|]] else [])
  }

  function AsSeq(o: Option<string>): seq<string> {
    match o case None => [] case Some(s) => [s]
  }

  function Tail(model: string): seq<string> {
    var tail := AliasTail(model);
    if tail != "" && tail != model then [tail] else []
  }

  function Cut(model: string): seq<string> {
    Tail(model) + AsSeq(TrimSnapshotSuffix(model)) + AsSeq(TrimVariantSuffix(model))
  }

  function Effort(model: string): seq<string> {
    if HasPrefix(model, "claude-") then TrimmedBy(model, EFFORT_SUFFIXES) else []
  }

  function Released(model: string): seq<string> {
    TrimmedBy(model, RELEASE_SUFFIXES)
  }

  // The names one stripping step away, in the order they are queued.
  function Stripped(model: string): seq<string> {
    Cut(model)
    + Released(model)
    + Effort(model)
  }

  // ---------- A step strips something, and offers at most twelve names ----------

  lemma {:induction false} JoinSplit(s: string, sep: char)
    ensures Join(Split(s, sep), sep) == s
    decreases |s|
  {
    if s != [] {
      var rest := Split(s[1..], sep);
      JoinSplit(s[1..], sep);
      if s[0] == sep {
        assert ([[]] + rest)[1..] == rest;
      } else {
        var parts := [[s[0]] + rest[0]] + rest[1..];
        assert parts[1..] == rest[1..];
        if |rest| > 1 {
          assert [s[0]] + rest[0] + [sep] + Join(rest[1..], sep) == [s[0]] + (rest[0] + [sep] + Join(rest[1..], sep));
        }
      }
    }
  }

  lemma {:induction false} JoinShorter(parts: seq<string>, k: nat, sep: char)
    requires 1 <= k < |parts|
    ensures |Join(parts[..k], sep)| < |Join(parts, sep)|
    decreases k
  {
    if k > 1 {
      assert parts[..k][1..] == parts[1..][..k - 1];
      JoinShorter(parts[1..], k - 1, sep);
    }
  }

  lemma {:induction false} TrimmedByShorter(model: string, suffixes: seq<string>)
    requires forall s :: s in suffixes ==> s != ""
    ensures |TrimmedBy(model, suffixes)| <= |suffixes|
    ensures forall y :: y in TrimmedBy(model, suffixes) ==> |y| < |model|
    decreases |suffixes|
  {
    if suffixes != [] {
      var n := |suffixes| - 1;
      assert suffixes[n] in suffixes && forall s :: s in suffixes[..n] ==> s in suffixes;
      TrimmedByShorter(model, suffixes[..n]);
    }
  }

  lemma {:induction false} TrimmedShorter(model: string)
    ensures forall y :: y in AsSeq(TrimSnapshotSuffix(model)) ==> |y| < |model|
  {
    var parts := Split(model, '-');
    JoinSplit(model, '-');
    if |parts| >= 4 {
      JoinShorter(parts, |parts| - 3, '-');
    }
    if |parts| >= 2 {
      JoinShorter(parts, |parts| - 1, '-');
    }
  }

  lemma {:induction false} CutIsShorter(model: string)
    ensures |Cut(model)| <= 3
    ensures forall y :: y in Cut(model) ==> |y| < |model|
  {
    TrimmedShorter(model);
  }

  lemma {:induction false} StrippedIsShorter(model: string)
    ensures |Stripped(model)| <= 12
    ensures forall y :: y in Stripped(model) ==> |y| < |model|
  {
    CutIsShorter(model);
    TrimmedByShorter(model, RELEASE_SUFFIXES);
    TrimmedByShorter(model, EFFORT_SUFFIXES);
  }

  // ---------- What a step strips ----------

  lemma {:induction false} SplitWord(w: string, sep: char)
    requires sep !in w
    ensures Split(w, sep) == [w]
    decreases |w|
  {
    if w != [] {
      SplitWord(w[1..], sep);
      assert [w[0]] + w[1..] == w;
    }
  }

  // A word after a separator is the last part.
  lemma {:induction false} SplitAppend(s: string, w: string, sep: char)
    requires sep !in w
    ensures Split(s + [sep] + w, sep) == Split(s, sep) + [w]
    decreases |s|
  {
    var whole := s + [sep] + w;
    if s == [] {
      SplitWord(w, sep);
      assert whole[1..] == w;
    } else {
      assert whole[1..] == s[1..] + [sep] + w;
      SplitAppend(s[1..], w, sep);
    }
  }

  lemma {:induction false} JoinAppend(parts: seq<string>, w: string, sep: char)
    requires parts != []
    ensures Join(parts + [w], sep) == Join(parts, sep) + [sep] + w
    decreases |parts|
  {
    var all := parts + [w];
    assert all[1..] == parts[1..] + [w];
    if |parts| > 1 {
      JoinAppend(parts[1..], w, sep);
      assert parts[0] + [sep] + (Join(parts[1..], sep) + [sep] + w) == parts[0] + [sep] + Join(parts[1..], sep) + [sep] + w;
    }
  }

  // The text before the last part, and that part.
  lemma {:induction false} SplitLast(s: string, sep: char)
    requires |Split(s, sep)| >= 2
    ensures var parts, n := Split(s, sep), |Split(s, sep)| - 1;
            s == Join(parts[..n], sep) + [sep] + parts[n] && Split(Join(parts[..n], sep), sep) == parts[..n]
  {
    var parts, n := Split(s, sep), |Split(s, sep)| - 1;
    JoinSplit(s, sep);
    assert parts == parts[..n] + [parts[n]];
    JoinAppend(parts[..n], parts[n], sep);
    PartsAreWords(s, sep);
    SplitAppend(Join(parts[..n], sep), parts[n], sep);
    assert (Split(Join(parts[..n], sep), sep) + [parts[n]])[..n] == Split(Join(parts[..n], sep), sep);
  }

  lemma {:induction false} PartsAreWords(s: string, sep: char)
    ensures forall i :: 0 <= i < |Split(s, sep)| ==> sep !in Split(s, sep)[i]
    decreases |s|
  {
    if s != [] {
      PartsAreWords(s[1..], sep);
    }
  }

  predicate Digits(s: string, n: nat) {
    |s| == n && forall i :: 0 <= i < |s| ==> '0' <= s[i] <= '9'
  }

  // The model is the name with a date after it, as -20240131 or as -2024-01-31.
  ghost predicate Dated(model: string, name: string) {
    || (exists day :: Digits(day, 8) && model == name + "-" + day)
    || (exists y, m, d :: Digits(y, 4) && Digits(m, 2) && Digits(d, 2) && model == name + "-" + y + "-" + m + "-" + d)
  }

  lemma {:induction false} SplitDated(name: string, y: string, m: string, d: string)
    requires Digits(y, 4) && Digits(m, 2) && Digits(d, 2)
    ensures TrimSnapshotSuffix(name + "-" + y + "-" + m + "-" + d) == Some(name)
  {
    SplitAppend(name, y, '-');
    SplitAppend(name + "-" + y, m, '-');
    SplitAppend(name + "-" + y + "-" + m, d, '-');
    var front, parts := Split(name, '-'), Split(name + "-" + y + "-" + m + "-" + d, '-');
    assert parts == front + [y] + [m] + [d] && parts[..|parts| - 3] == front;
    JoinSplit(name, '-');
  }

  lemma {:induction false} SplitDay(name: string, day: string)
    requires Digits(day, 8)
    ensures TrimSnapshotSuffix(name + "-" + day) == Some(name)
  {
    SplitAppend(name, day, '-');
    var front, parts := Split(name, '-'), Split(name + "-" + day, '-');
    assert parts == front + [day] && parts[..|parts| - 1] == front;
    JoinSplit(name, '-');
  }

  lemma {:induction false} LastThree(model: string)
    requires |Split(model, '-')| >= 4
    ensures var parts, n := Split(model, '-'), |Split(model, '-')|;
            model == Join(parts[..n - 3], '-') + "-" + parts[n - 3] + "-" + parts[n - 2] + "-" + parts[n - 1]
  {
    var parts, n := Split(model, '-'), |Split(model, '-')|;
    SplitLast(model, '-');
    var one := Join(parts[..n - 1], '-');
    SplitLast(one, '-');
    assert parts[..n - 1][..n - 2] == parts[..n - 2];
    var two := Join(parts[..n - 2], '-');
    SplitLast(two, '-');
    assert parts[..n - 2][..n - 3] == parts[..n - 3];
  }

  // A date is what the snapshot rule takes off, and nothing else.
  lemma {:induction false} SnapshotIsADate(model: string, name: string)
    ensures TrimSnapshotSuffix(model) == Some(name) <==> Dated(model, name)
  {
    if TrimSnapshotSuffix(model) == Some(name) {
      var parts, n := Split(model, '-'), |Split(model, '-')|;
      if n >= 4 && |parts[n - 3]| == 4 && |parts[n - 2]| == 2 && |parts[n - 1]| == 2
         && IsDigits(parts[n - 3]) && IsDigits(parts[n - 2]) && IsDigits(parts[n - 1]) {
        LastThree(model);
        assert Digits(parts[n - 3], 4) && Digits(parts[n - 2], 2) && Digits(parts[n - 1], 2);
      } else {
        SplitLast(model, '-');
        assert Digits(parts[n - 1], 8);
      }
    }
    forall day | Digits(day, 8) && model == name + "-" + day ensures TrimSnapshotSuffix(model) == Some(name) {
      SplitDay(name, day);
    }
    forall y, m, d | Digits(y, 4) && Digits(m, 2) && Digits(d, 2) && model == name + "-" + y + "-" + m + "-" + d
      ensures TrimSnapshotSuffix(model) == Some(name) {
      SplitDated(name, y, m, d);
    }
  }

  lemma {:induction false} TrimmedByMembers(model: string, suffixes: seq<string>, name: string)
    ensures name in TrimmedBy(model, suffixes) <==> exists s :: s in suffixes && model == name + s
    decreases |suffixes|
  {
    if suffixes != [] {
      var n := |suffixes| - 1;
      TrimmedByMembers(model, suffixes[..n], name);
      assert suffixes == suffixes[..n] + [suffixes[n]];
      if model == name + suffixes[n] {
        assert model[|model| - |suffixes[n]|..] == suffixes[n] && model[..|model| - |suffixes[n]|] == name;
      }
      if HasSuffix(model, suffixes[n]) {
        assert model == model[..|model| - |suffixes[n]|] + suffixes[n];
      }
    }
  }

  // The name is what follows the last slash.
  ghost predicate AfterSlash(model: string, name: string) {
    name != "" && '/' !in name && exists front :: model == front + "/" + name
  }

  // The name is what precedes the last colon.
  ghost predicate BeforeColon(model: string, name: string) {
    name != "" && exists variant :: ':' !in variant && model == name + ":" + variant
  }

  lemma {:induction false} TailIsAfterSlash(model: string, name: string)
    ensures name in Tail(model) <==> AfterSlash(model, name)
  {
    var i := LastIndex(model, '/');
    if name in Tail(model) {
      assert model == model[..i] + "/" + model[i + 1..];
    }
    if AfterSlash(model, name) {
      var front :| model == front + "/" + name;
      assert model[|front|] == '/' && model[|front| + 1..] == name;
      assert forall j :: |front| < j < |model| ==> model[j] == name[j - |front| - 1];
    }
  }

  lemma {:induction false} VariantIsBeforeColon(model: string, name: string)
    ensures TrimVariantSuffix(model) == Some(name) <==> BeforeColon(model, name)
  {
    var i := LastIndex(model, ':');
    if TrimVariantSuffix(model) == Some(name) {
      assert model == model[..i] + ":" + model[i + 1..];
    }
    if BeforeColon(model, name) {
      var variant :| ':' !in variant && model == name + ":" + variant;
      assert model[|name|] == ':' && model[..|name|] == name;
      assert forall j :: |name| < j < |model| ==> model[j] == variant[j - |name| - 1];
    }
  }

  ghost predicate EndsIn(model: string, name: string, suffixes: set<string>) {
    exists s :: s in suffixes && model == name + s
  }

  // One step takes off the path before a name, a date, a variant, a release word, or from a
  // claude model an effort, and nothing else.
  lemma {:induction false} StrippedMeans(model: string, name: string)
    ensures name in Stripped(model)
       <==> || AfterSlash(model, name) || Dated(model, name) || BeforeColon(model, name)
            || EndsIn(model, name, {"-chat-latest", "-thinking", "-preview", "-latest", "-exp"})
            || ("claude-" <= model && EndsIn(model, name, {"-high", "-medium", "-low", "-max"}))
  {
    TailIsAfterSlash(model, name);
    SnapshotIsADate(model, name);
    VariantIsBeforeColon(model, name);
    TrimmedByMembers(model, RELEASE_SUFFIXES, name);
    TrimmedByMembers(model, EFFORT_SUFFIXES, name);
    SuffixSets(model, name);
    assert HasPrefix(model, "claude-") <==> "claude-" <= model;
  }

  lemma {:induction false} SuffixSets(model: string, name: string)
    ensures EndsIn(model, name, {"-chat-latest", "-thinking", "-preview", "-latest", "-exp"})
       <==> exists s :: s in RELEASE_SUFFIXES && model == name + s
    ensures EndsIn(model, name, {"-high", "-medium", "-low", "-max"}) <==> exists s :: s in EFFORT_SUFFIXES && model == name + s
  {
    assert forall s :: s in RELEASE_SUFFIXES <==> s in {"-chat-latest", "-thinking", "-preview", "-latest", "-exp"};
    assert forall s :: s in EFFORT_SUFFIXES <==> s in {"-high", "-medium", "-low", "-max"};
  }

  // ---------- What a normal name is ----------

  // Lower case, with single dashes inside and none around.
  predicate Clean(s: string) {
    && !HasDoubleDash(s)
    && (s == "" || (s[0] != '-' && s[|s| - 1] != '-'))
    && forall i :: 0 <= i < |s| ==> s[i] != '_' && s[i] != ' ' && s[i] != '\\' && !('A' <= s[i] <= 'Z')
  }

  // The characters other than dashes, in order.
  function Dashless(s: string): string {
    if s == [] then [] else Dashless(s[..|s| - 1]) + if s[|s| - 1] == '-' then [] else [s[|s| - 1]]
  }

  lemma {:induction false} DashlessAppend(a: string, b: string)
    ensures Dashless(a + b) == Dashless(a) + Dashless(b)
    decreases |b|
  {
    if b == [] {
      assert a + b == a;
    } else {
      var n := |b| - 1;
      assert (a + b)[..|a + b| - 1] == a + b[..n];
      DashlessAppend(a, b[..n]);
    }
  }

  lemma {:induction false} HalvedKeeps(s: string)
    ensures Dashless(Halved(s)) == Dashless(s)
    ensures forall c :: c in Halved(s) ==> c in s
    decreases |s|
  {
    if |s| >= 2 {
      var k := if s[0] == '-' && s[1] == '-' then 2 else 1;
      HalvedKeeps(s[k..]);
      assert s == s[..k] + s[k..] && (k == 2 ==> s[..2] == "--") && (k == 1 ==> s[..1] == [s[0]]);
      assert Dashless("--") == Dashless("-") == "" by {
        assert "--"[..1] == "-";
      }
      DashlessAppend(s[..k], s[k..]);
      DashlessAppend([s[0]], Halved(s[k..]));
    }
  }

  lemma {:induction false} SingleDashesKeep(s: string)
    ensures Dashless(SingleDashes(s)) == Dashless(s) && !HasDoubleDash(SingleDashes(s))
    ensures forall c :: c in SingleDashes(s) ==> c in s
    decreases |s|
  {
    if HasDoubleDash(s) {
      HalvedKeeps(s);
      HalvedIsShorter(s);
      SingleDashesKeep(Halved(s));
    }
  }

  lemma {:induction false} TrimDashesKeep(s: string)
    requires !HasDoubleDash(s)
    ensures var r := TrimDashes(s);
            && Dashless(r) == Dashless(s) && !HasDoubleDash(r) && (r == "" || (r[0] != '-' && r[|r| - 1] != '-'))
            && forall c :: c in r ==> c in s
    decreases |s|
  {
    if s != [] && s[0] == '-' {
      assert s == "-" + s[1..];
      DashlessAppend("-", s[1..]);
      TrimDashesKeep(s[1..]);
    } else if s != [] && s[|s| - 1] == '-' {
      TrimDashesKeep(s[..|s| - 1]);
    }
  }

  // A normal name is clean, and all its other characters are the name's, with underscores and
  // spaces read as dashes and backslashes as slashes.
  lemma {:induction false} NormalAliasMeans(name: string)
    ensures Clean(NormalAlias(name))
    ensures Dashless(NormalAlias(name)) == Dashless(Replaced(Norm(name)))
  {
    var replaced := Replaced(Norm(name));
    NormIsLower(name);
    SingleDashesKeep(replaced);
    TrimDashesKeep(SingleDashes(replaced));
    assert forall i :: 0 <= i < |NormalAlias(name)| ==> NormalAlias(name)[i] in replaced;
  }

  lemma {:induction false} NormIsLower(name: string)
    ensures forall c :: c in Replaced(Norm(name)) ==> c != '_' && c != ' ' && c != '\\' && !('A' <= c <= 'Z')
  {
    TrimmedIsPart(Lower(name));
    var norm := Norm(name);
    assert forall i :: 0 <= i < |norm| ==> norm[i] in Lower(name);
    assert forall i :: 0 <= i < |norm| ==> !('A' <= norm[i] <= 'Z');
    forall c | c in Replaced(norm) ensures c != '_' && c != ' ' && c != '\\' && !('A' <= c <= 'Z') {
      var i :| 0 <= i < |norm| && Replaced(norm)[i] == c;
    }
  }

  lemma {:induction false} TrimmedIsPart(s: string)
    ensures forall c :: c in Trim(s) ==> c in s
    ensures |Trim(s)| <= |s| && (!Trimmed(s) ==> |Trim(s)| < |s|)
  {
    var before, after := TrimTakesSpaceOff(s);
    if before == [] && after == [] {
      assert s == Trim(s);
    }
  }

  // Normalising again changes nothing exactly where no other space than blanks was left at
  // an end by taking the dashes off.
  lemma {:induction false} NormalAliasIdempotentIff(name: string)
    ensures NormalAlias(NormalAlias(name)) == NormalAlias(name) <==> Trimmed(NormalAlias(name))
  {
    var n := NormalAlias(name);
    NormalAliasMeans(name);
    assert Lower(n) == n;
    if Trimmed(n) {
      TrimmedStays(n);
      assert Replaced(n) == n;
    } else {
      TrimmedIsPart(n);
      NormalAliasNoLonger(n);
    }
  }

  lemma {:induction false} NormalAliasNoLonger(s: string)
    ensures |NormalAlias(s)| <= |Norm(s)|
  {
    SinglesNoLonger(Replaced(Norm(s)));
    DashesNoLonger(SingleDashes(Replaced(Norm(s))));
  }

  lemma {:induction false} SinglesNoLonger(s: string)
    ensures |SingleDashes(s)| <= |s|
    decreases |s|
  {
    if HasDoubleDash(s) {
      HalvedIsShorter(s);
      SinglesNoLonger(Halved(s));
    }
  }

  lemma {:induction false} DashesNoLonger(s: string)
    ensures |TrimDashes(s)| <= |s|
    decreases |s|
  {
    if s != [] && s[0] == '-' {
      DashesNoLonger(s[1..]);
    } else if s != [] && s[|s| - 1] == '-' {
      DashesNoLonger(s[..|s| - 1]);
    }
  }

  // A clean name is its own normal form, and a price for one upstream is found under both.
  lemma {:induction false} CleanIsNormal(upstream: string, model: string)
    requires Clean(upstream) && Trimmed(upstream) && Clean(model) && Trimmed(model)
    ensures NormalAlias(model) == model
    ensures upstream != "" && model != "" ==> ScopedKey(upstream, model) == "provider::" + upstream + "::" + model
  {
    TrimmedStays(model);
    TrimmedStays(upstream);
    assert Lower(model) == model && Lower(upstream) == upstream;
    assert Replaced(model) == model && Replaced(upstream) == upstream;
  }

  // ---------- Termination measure ----------

  function Power(n: nat): (p: nat)
    ensures p > 0
  {
    if n == 0 then 1 else 13 * Power(n - 1)
  }

  // What is still queued, each name counting thirteen to the power of its length.
  function Weight(queue: seq<string>): nat {
    if queue == [] then 0 else Power(|queue[0]|) + Weight(queue[1..])
  }

  lemma {:induction false} WeightAppend(a: seq<string>, b: seq<string>)
    ensures Weight(a + b) == Weight(a) + Weight(b)
    decreases |a|
  {
    if a == [] {
      assert a + b == b;
    } else {
      assert (a + b)[1..] == a[1..] + b;
      WeightAppend(a[1..], b);
    }
  }

  lemma {:induction false} PowerGrows(m: nat, n: nat)
    requires m <= n
    ensures Power(m) <= Power(n)
    decreases n
  {
    if m < n {
      PowerGrows(m, n - 1);
    }
  }

  function Times(k: nat, p: nat): nat {
    k * p
  }

  lemma {:induction false} TimesStep(k: nat, p: nat)
    ensures Times(k + 1, p) == p + Times(k, p)
  {
  }

  lemma {:induction false} TwelveIsLess(k: nat, p: nat)
    requires k <= 12 && p > 0
    ensures Times(k, p) < 13 * p
  {
    assert k * p <= 12 * p;
  }

  lemma {:induction false} WeightBound(ys: seq<string>, n: nat)
    requires forall y :: y in ys ==> |y| <= n
    ensures Weight(ys) <= Times(|ys|, Power(n))
    decreases |ys|
  {
    if ys != [] {
      assert ys[0] in ys;
      PowerGrows(|ys[0]|, n);
      WeightBound(ys[1..], n);
      TimesStep(|ys| - 1, Power(n));
    }
  }

  lemma {:induction false} RoundLosesWeight(queue: seq<string>, more: seq<string>)
    requires queue != [] && queue[0] != "" && |more| <= 12
    requires forall y :: y in more ==> |y| < |queue[0]|
    ensures Weight(queue[1..] + more) < Weight(queue)
  {
    var n := |queue[0]| - 1;
    WeightAppend(queue[1..], more);
    WeightBound(more, n);
    TwelveIsLess(|more|, Power(n));
  }

  // ---------- Reachability, for any rule saying which names are one step away ----------

  type Rule = string -> seq<string>

  // Can n steps, never from the empty name, lead from root to x?
  ghost predicate ReachedIn(next: Rule, root: string, x: string, n: nat)
    decreases n
  {
    if n == 0 then x == root
    else exists y :: y != "" && ReachedIn(next, root, y, n - 1) && x in next(y)
  }

  ghost predicate Reachable(next: Rule, root: string, x: string) {
    exists n: nat :: ReachedIn(next, root, x, n)
  }

  // Whatever number of steps leads to y, as few lead to x.
  ghost predicate NoFurther(next: Rule, root: string, x: string, y: string) {
    forall n: nat :: ReachedIn(next, root, y, n) ==> exists m: nat :: m <= n && ReachedIn(next, root, x, m)
  }

  // ---------- Breadth-first search ----------

  // The names found so far with the depth of each, and the queue with the depth of each entry.
  datatype Search = Search(found: seq<string>, depth: map<string, nat>, queue: seq<string>, at: seq<nat>)

  ghost predicate Wellformed(s: Search) {
    && |s.at| == |s.queue|
    && s.depth.Keys == (set x | x in s.found)
    && (forall i, j :: 0 <= i < j < |s.found| ==> s.found[i] != s.found[j])
    && "" !in s.depth
  }

  ghost predicate Sound(next: Rule, root: string, s: Search)
    requires Wellformed(s)
  {
    && (forall i :: 0 <= i < |s.queue| ==> ReachedIn(next, root, s.queue[i], s.at[i]))
    && (forall x :: x in s.depth ==> ReachedIn(next, root, x, s.depth[x]))
  }

  // Depths never fall along the queue, span at most one level, and what is found is no deeper.
  ghost predicate Sorted(s: Search)
    requires Wellformed(s)
  {
    && (forall i, j :: 0 <= i < j < |s.at| ==> s.at[i] <= s.at[j] <= s.at[0] + 1)
    && (forall i, j :: 0 <= i < j < |s.found| ==> s.depth[s.found[i]] <= s.depth[s.found[j]])
    && (s.at != [] ==> forall x :: x in s.depth ==> s.depth[x] <= s.at[0])
  }

  ghost predicate Known(s: Search, y: string, n: nat)
    requires Wellformed(s)
  {
    (y in s.depth && s.depth[y] <= n) || exists i :: 0 <= i < |s.queue| && s.queue[i] == y && s.at[i] <= n
  }

  // Every step from a found name leads to one found or queued, at most one deeper.
  ghost predicate Closed(next: Rule, root: string, s: Search)
    requires Wellformed(s)
  {
    && Known(s, root, 0)
    && forall x, y :: x in s.depth && y in next(x) && y != "" ==> Known(s, y, s.depth[x] + 1)
  }

  ghost predicate Shortest(next: Rule, root: string, s: Search)
    requires Wellformed(s)
  {
    forall x, n: nat :: x in s.depth && ReachedIn(next, root, x, n) ==> s.depth[x] <= n
  }

  ghost predicate Explored(next: Rule, root: string, s: Search) {
    && root != "" && Wellformed(s)
    && Sound(next, root, s) && Sorted(s) && Closed(next, root, s) && Shortest(next, root, s)
  }

  // A name n steps away has been found, at depth n or less, unless the queue still holds
  // something no deeper than n.
  lemma {:induction false} FoundBefore(next: Rule, root: string, s: Search, x: string, n: nat)
    requires root != "" && x != "" && ReachedIn(next, root, x, n)
    requires Wellformed(s) && Sorted(s) && Closed(next, root, s)
    ensures (x in s.depth && s.depth[x] <= n) || (s.queue != [] && s.at[0] <= n)
    decreases n
  {
    if n == 0 {
      assert Known(s, root, 0);
    } else {
      var y :| y != "" && ReachedIn(next, root, y, n - 1) && x in next(y);
      FoundBefore(next, root, s, y, n - 1);
      if y in s.depth && s.depth[y] <= n - 1 {
        assert Known(s, x, s.depth[y] + 1);
      }
    }
  }

  function Drop(s: Search): Search
    requires s.queue != [] && s.at != []
  {
    s.(queue := s.queue[1..], at := s.at[1..])
  }

  lemma {:induction false} KnownAfterDrop(s: Search, y: string, n: nat)
    requires Wellformed(s) && Sorted(s) && s.queue != [] && (s.queue[0] == "" || s.queue[0] in s.depth)
    requires Known(s, y, n) && y != ""
    ensures Wellformed(Drop(s)) && Known(Drop(s), y, n)
  {
    var s' := Drop(s);
    if !(y in s.depth && s.depth[y] <= n) {
      var i :| 0 <= i < |s.queue| && s.queue[i] == y && s.at[i] <= n;
      if i > 0 {
        assert s'.queue[i - 1] == y && s'.at[i - 1] == s.at[i];
      }
    }
  }

  lemma {:induction false} DropKeeps(next: Rule, root: string, s: Search)
    requires Explored(next, root, s) && s.queue != [] && (s.queue[0] == "" || s.queue[0] in s.depth)
    ensures Explored(next, root, Drop(s))
  {
    KnownAfterDrop(s, root, 0);
    forall x, y | x in s.depth && y in next(x) && y != "" ensures Known(Drop(s), y, s.depth[x] + 1) {
      KnownAfterDrop(s, y, s.depth[x] + 1);
    }
  }

  function Expand(s: Search, more: seq<string>): Search
    requires s.queue != [] && s.at != []
  {
    Search(s.found + [s.queue[0]], s.depth[s.queue[0] := s.at[0]],
           s.queue[1..] + more, s.at[1..] + seq(|more|, _ => s.at[0] + 1))
  }

  lemma {:induction false} KnownAfterExpand(s: Search, more: seq<string>, y: string, n: nat)
    requires Wellformed(s) && s.queue != [] && s.queue[0] != "" && s.queue[0] !in s.depth
    requires Wellformed(Expand(s, more))
    requires Known(s, y, n) || (y in more && s.at[0] + 1 <= n)
    ensures Known(Expand(s, more), y, n)
  {
    var s', k := Expand(s, more), |s.queue| - 1;
    if Known(s, y, n) {
      if !(y in s.depth && s.depth[y] <= n) {
        var i :| 0 <= i < |s.queue| && s.queue[i] == y && s.at[i] <= n;
        if i > 0 {
          assert s'.queue[i - 1] == y && s'.at[i - 1] == s.at[i];
        }
      }
    } else {
      var j :| 0 <= j < |more| && more[j] == y;
      assert s'.queue[k + j] == y && s'.at[k + j] == s.at[0] + 1;
    }
  }

  lemma {:induction false} ExpandSorted(s: Search, more: seq<string>)
    requires Wellformed(s) && Sorted(s) && s.queue != [] && s.queue[0] != "" && s.queue[0] !in s.depth
    ensures Wellformed(Expand(s, more)) && Sorted(Expand(s, more))
  {
    ExpandWellformed(s, more);
    QueueSorted(s.at, seq(|more|, _ => s.at[0] + 1));
    var s' := Expand(s, more);
    forall i, j | 0 <= i < j < |s'.found| ensures s'.depth[s'.found[i]] <= s'.depth[s'.found[j]] {
      assert s'.found[i] == s.found[i] && s.found[i] in s.depth;
    }
  }

  lemma {:induction false} QueueSorted(at: seq<nat>, more: seq<nat>)
    requires at != [] && (forall i, j :: 0 <= i < j < |at| ==> at[i] <= at[j] <= at[0] + 1)
    requires forall i :: 0 <= i < |more| ==> more[i] == at[0] + 1
    ensures var at' := at[1..] + more;
            && (forall i, j :: 0 <= i < j < |at'| ==> at'[i] <= at'[j] <= at'[0] + 1)
            && (forall i :: 0 <= i < |at'| ==> at[0] <= at'[i])
  {
  }

  lemma {:induction false} ExpandWellformed(s: Search, more: seq<string>)
    requires Wellformed(s) && s.queue != [] && s.queue[0] != "" && s.queue[0] !in s.depth
    ensures Wellformed(Expand(s, more))
    ensures forall x :: x in s.found ==> x in s.depth
  {
  }

  lemma {:induction false} ExpandSound(next: Rule, root: string, s: Search, more: seq<string>)
    requires Wellformed(s) && Sound(next, root, s) && s.queue != [] && s.queue[0] != "" && more == next(s.queue[0])
    requires Wellformed(Expand(s, more))
    ensures Sound(next, root, Expand(s, more))
  {
    var s', head := Expand(s, more), s.queue[0];
    forall i | 0 <= i < |s'.queue| ensures ReachedIn(next, root, s'.queue[i], s'.at[i]) {
      if i < |s.queue| - 1 {
        assert s'.queue[i] == s.queue[i + 1] && s'.at[i] == s.at[i + 1];
      } else {
        assert s'.queue[i] in more && s'.at[i] == s.at[0] + 1;
        assert ReachedIn(next, root, head, s.at[0]);
      }
    }
  }

  lemma {:induction false} ExpandClosed(next: Rule, root: string, s: Search, more: seq<string>)
    requires Wellformed(s) && Closed(next, root, s) && s.queue != [] && s.queue[0] != "" && s.queue[0] !in s.depth
    requires more == next(s.queue[0]) && Wellformed(Expand(s, more))
    ensures Closed(next, root, Expand(s, more))
  {
    var s' := Expand(s, more);
    KnownAfterExpand(s, more, root, 0);
    forall x, y | x in s'.depth && y in next(x) && y != "" ensures Known(s', y, s'.depth[x] + 1) {
      if x != s.queue[0] {
        assert Known(s, y, s.depth[x] + 1);
      }
      KnownAfterExpand(s, more, y, s'.depth[x] + 1);
    }
  }

  lemma {:induction false} ExpandKeeps(next: Rule, root: string, s: Search, more: seq<string>)
    requires Explored(next, root, s) && s.queue != [] && s.queue[0] != "" && s.queue[0] !in s.depth
    requires more == next(s.queue[0])
    ensures Explored(next, root, Expand(s, more))
  {
    ExpandSorted(s, more);
    ExpandSound(next, root, s, more);
    ExpandClosed(next, root, s, more);
    forall n: nat | ReachedIn(next, root, s.queue[0], n) ensures s.at[0] <= n {
      FoundBefore(next, root, s, s.queue[0], n);
    }
  }

  lemma {:induction false} DoneMeansAll(next: Rule, root: string, s: Search)
    requires Explored(next, root, s) && s.queue == []
    ensures forall x :: x in s.found <==> x != "" && Reachable(next, root, x)
    ensures forall i, j :: 0 <= i < j < |s.found| ==> NoFurther(next, root, s.found[i], s.found[j])
  {
    assert forall x :: x in s.found <==> x in s.depth;
    forall x | x != "" && Reachable(next, root, x) ensures x in s.found {
      var n: nat :| ReachedIn(next, root, x, n);
      FoundBefore(next, root, s, x, n);
    }
    forall i, j | 0 <= i < j < |s.found| ensures NoFurther(next, root, s.found[i], s.found[j]) {
      var x, y := s.found[i], s.found[j];
      assert s.depth[x] <= s.depth[y] && ReachedIn(next, root, x, s.depth[x]);
    }
  }

  // One round that takes up a new name.
  lemma {:induction false} Round(root: string, s: Search)
    requires Explored(Stripped, root, s) && s.queue != [] && s.queue[0] != "" && s.queue[0] !in s.depth
    ensures Explored(Stripped, root, Expand(s, Stripped(s.queue[0])))
    ensures Weight(s.queue[1..] + Stripped(s.queue[0])) < Weight(s.queue)
  {
    var more := Stripped(s.queue[0]);
    ExpandKeeps(Stripped, root, s, more);
    StrippedIsShorter(s.queue[0]);
    RoundLosesWeight(s.queue, more);
  }

  // One that drops a name seen before.
  lemma {:induction false} DropRound(root: string, s: Search)
    requires Explored(Stripped, root, s) && s.queue != [] && (s.queue[0] == "" || s.queue[0] in s.depth)
    ensures Explored(Stripped, root, Drop(s))
    ensures Weight(s.queue[1..]) < Weight(s.queue)
  {
    DropKeeps(Stripped, root, s);
  }

  // ---------- The loop ----------

  method PushTrimmed(queue: seq<string>, model: string, suffixes: seq<string>) returns (pushed: seq<string>)
    ensures pushed == queue + TrimmedBy(model, suffixes)
  {
    pushed := queue;
    for i := 0 to |suffixes|
      invariant pushed == queue + TrimmedBy(model, suffixes[..i])
    {
      assert suffixes[..i + 1][..i] == suffixes[..i];
      if HasSuffix(model, suffixes[i]) {
        pushed := pushed + [model[..|model| - |suffixes[i]|]];
      }
    }
    assert suffixes[..|suffixes|] == suffixes;
  }

  method PushCut(queue: seq<string>, current: string) returns (pushed: seq<string>)
    ensures pushed == queue + Cut(current)
  {
    pushed := queue;
    var tail := AliasTail(current);
    if tail != "" && tail != current {
      pushed := pushed + [tail];
    }
    var snapshot := TrimSnapshotSuffix(current);
    if snapshot.Some? {
      pushed := pushed + [snapshot.value];
    }
    var variant := TrimVariantSuffix(current);
    if variant.Some? {
      pushed := pushed + [variant.value];
    }
  }

  method PushStripped(queue: seq<string>, current: string) returns (pushed: seq<string>)
    ensures pushed == queue + Stripped(current)
  {
    var cut := PushCut(queue, current);
    var released := PushTrimmed(cut, current, RELEASE_SUFFIXES);
    pushed := released;
    if HasPrefix(current, "claude-") {
      pushed := PushTrimmed(released, current, EFFORT_SUFFIXES);
    }
    Appends(queue, Cut(current), Released(current), Effort(current), pushed);
  }

  lemma {:induction false} Appends(queue: seq<string>, a: seq<string>, b: seq<string>, c: seq<string>, all: seq<string>)
    requires all == queue + a + b + c || (c == [] && all == queue + a + b)
    ensures all == queue + (a + b + c)
  {
  }

  // What the loop returns, from the names found so far and those queued.
  function AliasesFrom(found: seq<string>, queue: seq<string>): seq<string>
    decreases Weight(queue)
  {
    if queue == [] then found
    else
      var current, rest := queue[0], queue[1..];
      if current == "" || current in found then
        assert Weight(rest) < Weight(queue);
        AliasesFrom(found, rest)
      else
        StrippedIsShorter(current);
        RoundLosesWeight(queue, Stripped(current));
        AliasesFrom(found + [current], rest + Stripped(current))
  }

  function Aliases(model: string): seq<string> {
    if NormalAlias(model) == "" then [] else AliasesFrom([], [NormalAlias(model)])
  }

  /** All the names that stripping can lead to from the normalised name, each once, nearer
      names first. */
  method CanonicalPricingAliases(model: string) returns (aliases: seq<string>)
    ensures aliases == Aliases(model)
    ensures forall i, j :: 0 <= i < j < |aliases| ==> aliases[i] != aliases[j]
    ensures forall x :: x in aliases <==> NormalAlias(model) != "" && x != "" && Reachable(Stripped, NormalAlias(model), x)
    ensures forall i, j :: 0 <= i < j < |aliases| ==> NoFurther(Stripped, NormalAlias(model), aliases[i], aliases[j])
  {
    var root := NormalAlias(model);
    if root == "" {
      return [];
    }
    aliases := [];
    var seen: set<string> := {};
    var queue := [root];
    ghost var s := Search([], map[], [root], [0]);
    while |queue| > 0
      invariant queue == s.queue && aliases == s.found && seen == s.depth.Keys
      invariant Explored(Stripped, root, s)
      invariant AliasesFrom(aliases, queue) == AliasesFrom([], [root])
      decreases Weight(queue)
    {
      var current := queue[0];
      assert current in seen <==> current in aliases;
      if current == "" || current in seen {
        DropRound(root, s);
        s := Drop(s);
        queue := queue[1..];
        continue;
      }
      Round(root, s);
      s := Expand(s, Stripped(current));
      seen := seen + {current};
      aliases := aliases + [current];
      queue := PushStripped(queue[1..], current);
    }
    DoneMeansAll(Stripped, root, s);
  }

  lemma {:induction false} FoundStay(found: seq<string>, queue: seq<string>)
    ensures found <= AliasesFrom(found, queue)
    decreases Weight(queue)
  {
    if queue != [] {
      var current, rest := queue[0], queue[1..];
      if current == "" || current in found {
        FoundStay(found, rest);
      } else {
        StrippedIsShorter(current);
        RoundLosesWeight(queue, Stripped(current));
        FoundStay(found + [current], rest + Stripped(current));
        assert found <= found + [current];
      }
    }
  }

  // A model's own normal name comes first.
  lemma {:induction false} OwnNameFirst(model: string)
    requires NormalAlias(model) != ""
    ensures Aliases(model) != [] && Aliases(model)[0] == NormalAlias(model)
  {
    var root := NormalAlias(model);
    assert [root][1..] == [];
    FoundStay([root], [] + Stripped(root));
    StrippedIsShorter(root);
    RoundLosesWeight([root], Stripped(root));
    assert [] + [root] == [root];
  }

  // ---------- The names a route's price is looked up by ----------

  function Added(found: seq<string>, more: seq<string>): seq<string> {
    if more == [] then found
    else
      var front, last := Added(found, more[..|more| - 1]), more[|more| - 1];
      if last == "" || last in front then front else front + [last]
  }

  function Candidates(requested: string, effective: string): seq<string> {
    Added(Added([], Aliases(requested)), Aliases(effective))
  }

  method AddAliases(found: seq<string>, model: string) returns (candidates: seq<string>)
    ensures candidates == Added(found, Aliases(model))
  {
    var aliases := CanonicalPricingAliases(model);
    candidates := found;
    for i := 0 to |aliases|
      invariant candidates == Added(found, aliases[..i])
    {
      assert aliases[..i + 1][..i] == aliases[..i];
      if aliases[i] == "" || aliases[i] in candidates {
        continue;
      }
      candidates := candidates + [aliases[i]];
    }
    assert aliases[..|aliases|] == aliases;
  }

  method PricingLookupCandidates(requested: string, effective: string) returns (candidates: seq<string>)
    ensures candidates == Candidates(requested, effective)
    ensures forall x :: x in candidates <==> x in Aliases(requested) || x in Aliases(effective)
    ensures NoneTwice(candidates)
    ensures Aliases(requested) <= candidates
    ensures ComesInOrder(candidates[|Aliases(requested)|..], Aliases(effective))
  {
    candidates := AddAliases([], requested);
    candidates := AddAliases(candidates, effective);
    AddedMembers([], Aliases(requested));
    AddedMembers(Added([], Aliases(requested)), Aliases(effective));
    var r := CanonicalPricingAliases(requested);
    var e := CanonicalPricingAliases(effective);
    AllAdded(Aliases(requested));
    AddedAtEnd(Aliases(requested), Aliases(effective));
  }

  // Of two of these names, the one that comes first does so in the other list as well.
  ghost predicate ComesInOrder(names: seq<string>, all: seq<string>) {
    forall i, j :: 0 <= i < j < |names| ==> exists p, q :: 0 <= p < q < |all| && all[p] == names[i] && all[q] == names[j]
  }

  lemma {:induction false} AllAdded(names: seq<string>)
    requires NoneTwice(names) && "" !in names
    ensures Added([], names) == names
    decreases |names|
  {
    if names != [] {
      var n := |names| - 1;
      AllAdded(names[..n]);
      assert names[n] in names && names[n] !in names[..n];
    }
  }

  lemma {:induction false} AddedAtEnd(found: seq<string>, more: seq<string>)
    ensures found <= Added(found, more) && ComesInOrder(Added(found, more)[|found|..], more)
    ensures forall x :: x in Added(found, more)[|found|..] ==> x in more
    decreases |more|
  {
    if more != [] {
      var n := |more| - 1;
      AddedAtEnd(found, more[..n]);
      var front, all := Added(found, more[..n])[|found|..], Added(found, more)[|found|..];
      assert all == front || all == front + [more[n]];
      assert forall x :: x in more[..n] ==> x in more;
      forall i, j | 0 <= i < j < |all| ensures exists p, q :: 0 <= p < q < |more| && more[p] == all[i] && more[q] == all[j] {
        assert all[i] == front[i] && front[i] in more[..n];
        if j < |front| {
          var p, q :| 0 <= p < q < n && more[..n][p] == front[i] && more[..n][q] == front[j];
          assert more[p] == all[i] && more[q] == all[j];
        } else {
          var p :| 0 <= p < n && more[..n][p] == front[i];
          assert more[p] == all[i] && more[n] == all[j];
        }
      }
    }
  }

  predicate NoneTwice(s: seq<string>) {
    forall i, j :: 0 <= i < j < |s| ==> s[i] != s[j]
  }

  lemma {:induction false} AddedMembers(found: seq<string>, more: seq<string>)
    requires NoneTwice(found)
    ensures forall x :: x in Added(found, more) <==> x in found || (x != "" && x in more)
    ensures NoneTwice(Added(found, more))
    decreases |more|
  {
    if more != [] {
      var n := |more| - 1;
      AddedMembers(found, more[..n]);
      assert more == more[..n] + [more[n]];
      if more[n] !in Added(found, more[..n]) {
        StillNoneTwice(Added(found, more[..n]), more[n]);
      }
    }
  }

  lemma {:induction false} StillNoneTwice(s: seq<string>, x: string)
    requires NoneTwice(s) && x !in s
    ensures NoneTwice(s + [x])
  {
  }
}
