/**
  The folder-name templater (`GetFolderName`): five literal replace-all passes
  over the name format, in the fixed order `{name}`, `{package}`, `{version}`,
  `{bundle}`, `{date}`, each pass working on the output of the previous one.
  The values come from the host (product name, application identifier,
  version, bundle version code, the current time formatted with
  `dateTimeFormat`) and are parameters here.
 */
module FolderNames {
  import opened Strings

  /** The host-provided strings the placeholders stand for. */
  datatype Context = Context(
    productName: string,
    identifier: string,
    version: string,
    bundleCode: string,
    date: string)

  /** The five placeholders, declared in the order their passes run. */
  datatype Token = Name | Package | Version | Bundle | Date

  /** The literal text of a placeholder: `{`, a lower-case word, `}`. */
  function TokenText(t: Token): (r: string)
    ensures |r| >= 3 && r[0] == '{' && r[|r| - 1] == '}'
    ensures forall j | 0 < j < |r| :: r[j] != '{'
  {
    match t
    case Name => "{name}"
    case Package => "{package}"
    case Version => "{version}"
    case Bundle => "{bundle}"
    case Date => "{date}"
  }

  function TokenValue(t: Token, ctx: Context): (value: string)
  {
    match t
    case Name => ctx.productName
    case Package => ctx.identifier
    case Version => ctx.version
    case Bundle => ctx.bundleCode
    case Date => ctx.date
  }

  /** Position of a placeholder's pass in the chain. */
  function Rank(t: Token): (r: nat)
    ensures r < 5
  {
    match t
    case Name => 0
    case Package => 1
    case Version => 2
    case Bundle => 3
    case Date => 4
  }

  /** The placeholder whose pass is the `k`-th of the chain. */
  function TokenOfRank(k: nat): (t: Token)
    requires k < 5
    ensures Rank(t) == k
  {
    if k == 0 then Name
    else if k == 1 then Package
    else if k == 2 then Version
    else if k == 3 then Bundle
    else Date
  }

  /** One `StringBuilder.Replace` of the chain. */
  function Pass(s: string, t: Token, ctx: Context): (r: string)
  {
    ReplaceAll(s, TokenText(t), TokenValue(t, ctx))
  }

  /** `GetFolderName`: the five passes applied in order to `format`. */
  function FolderName(format: string, ctx: Context): (name: string)
  {
    Pass(Pass(Pass(Pass(Pass(format, Name, ctx), Package, ctx), Version, ctx), Bundle, ctx), Date, ctx)
  }

  // ---------------------------------------------------------------- templates as parts

  /** A name format seen as literal text and placeholders. */
  datatype Part = Lit(text: string) | Tok(token: Token)

  /** The format string the parts spell. */
  function Text(parts: seq<Part>): (format: string)
  {
    if parts == [] then ""
    else (match parts[0] case Lit(l) => l case Tok(t) => TokenText(t)) + Text(parts[1..])
  }

  /** The intended folder name: each placeholder replaced by its value, literals kept. */
  function Render(parts: seq<Part>, ctx: Context): (name: string)
  {
    if parts == [] then ""
    else (match parts[0] case Lit(l) => l case Tok(t) => TokenValue(t, ctx)) + Render(parts[1..], ctx)
  }

  predicate BraceFree(s: string)
  {
    '{' !in s
  }

  /** No non-empty end of `l` is an unfinished beginning of `pat`. */
  predicate NoUnfinished(l: string, pat: string)
  {
    forall i | 0 <= i < |l| < i + |pat| :: l[i..] != pat[..|l| - i]
  }

  /**
    Literal text that no pass can touch, whatever surrounds it: it holds none
    of the five placeholders and does not end in the beginning of one (such
    as `{` or `{dat`), which the next part could complete. Unknown `{...}`
    tokens and braces elsewhere are allowed.
   */
  predicate LiteralSafe(l: string)
  {
    forall t: Token :: !Contains(l, TokenText(t)) && NoUnfinished(l, TokenText(t))
  }

  predicate LiteralsSafe(parts: seq<Part>)
  {
    forall k | 0 <= k < |parts| :: parts[k].Lit? ==> LiteralSafe(parts[k].text)
  }

  /**
    No value that a later pass can rescan holds an opening brace. The date is
    inserted by the last pass, so nothing rescans it and it is unconstrained.
   */
  predicate RescannedValuesBraceFree(ctx: Context)
  {
    forall t: Token | t != Date :: BraceFree(TokenValue(t, ctx))
  }

  /** A part after the first `k` passes: placeholders of rank below `k` hold their values. */
  function StagePart(p: Part, ctx: Context, k: nat): (text: string)
  {
    match p
    case Lit(l) => l
    case Tok(t) => if Rank(t) < k then TokenValue(t, ctx) else TokenText(t)
  }

  /** The whole string after the first `k` passes. */
  function Stage(parts: seq<Part>, ctx: Context, k: nat): (text: string)
  {
    if parts == [] then "" else StagePart(parts[0], ctx, k) + Stage(parts[1..], ctx, k)
  }

  // ---------------------------------------------------------------- lemmas

  /** The placeholders differ in their second character. */
  lemma TokenSecondCharDistinct(t: Token, u: Token)
    requires TokenText(t)[1] == TokenText(u)[1]
    ensures t == u
  {
  }

  /** No placeholder occurs in text without an opening brace. */
  lemma NoTokenInBraceFree(s: string, t: Token)
    requires BraceFree(s)
    ensures !Contains(s, TokenText(t))
  {
  }

  /** An occurrence of a pattern begins with the pattern's first character. */
  lemma OccurrenceStart(s: string, pat: string, i: int)
    requires |pat| > 0
    ensures HasAt(s, pat, i) ==> s[i] == pat[0]
  {
    if HasAt(s, pat, i) {
      assert s[i..i + |pat|][0] == s[i];
    }
  }

  /**
    In text that starts with placeholder `u`, an occurrence of placeholder `t`
    starting inside `u` must start at `u`'s brace and so be `u` itself.
   */
  lemma TokenOnlyAtBrace(s: string, t: Token, u: Token, i: int)
    requires |s| >= |TokenText(u)| && s[..|TokenText(u)|] == TokenText(u)
    requires 0 <= i < |TokenText(u)|
    ensures HasAt(s, TokenText(t), i) ==> i == 0 && t == u
  {
    var pat, own := TokenText(t), TokenText(u);
    OccurrenceStart(s, pat, i);
    assert s[i] == own[i];
    if HasAt(s, pat, i) {
      assert i == 0;
      assert s[..|pat|][1] == s[1] == own[1];
      TokenSecondCharDistinct(t, u);
    }
  }

  /** A placeholder does not occur inside a different placeholder. */
  lemma NoTokenInOtherToken(t: Token, u: Token)
    requires t != u
    ensures !Contains(TokenText(u), TokenText(t))
  {
    var s := TokenText(u);
    assert s[..|s|] == s;
    forall i | 0 <= i <= |s|
      ensures !HasAt(s, TokenText(t), i)
    {
      if i < |s| {
        TokenOnlyAtBrace(s, t, u, i);
      }
    }
  }

  /** Brace-free text is safe literal text. */
  lemma BraceFreeLiteralSafe(l: string)
    requires BraceFree(l)
    ensures LiteralSafe(l)
  {
    forall t: Token
      ensures !Contains(l, TokenText(t)) && NoUnfinished(l, TokenText(t))
    {
      NoTokenInBraceFree(l, t);
      var pat := TokenText(t);
      forall i | 0 <= i < |l| < i + |pat|
        ensures l[i..] != pat[..|l| - i]
      {
        assert l[i..][0] == l[i] != '{';
      }
    }
  }

  /** An occurrence that starts in `a` and runs past it begins with an end of `a`. */
  lemma StraddleIsUnfinished(a: string, rest: string, pat: string, i: int)
    requires 0 <= i < |a| < i + |pat|
    ensures HasAt(a + rest, pat, i) ==> a[i..] == pat[..|a| - i]
  {
    if HasAt(a + rest, pat, i) {
      assert (a + rest)[i..i + |pat|][..|a| - i] == a[i..];
    }
  }

  /** No occurrence of the `k`-th placeholder straddles the end of a part. */
  lemma StagePartNoStraddle(p: Part, rest: string, ctx: Context, k: nat)
    requires k < 5
    requires RescannedValuesBraceFree(ctx)
    requires p.Lit? ==> LiteralSafe(p.text)
    ensures NoStraddle(StagePart(p, ctx, k), rest, TokenText(TokenOfRank(k)))
  {
    var a, t := StagePart(p, ctx, k), TokenOfRank(k);
    var pat := TokenText(t);
    assert (a + rest)[..|a|] == a;
    forall i | 0 <= i < |a| < i + |pat|
      ensures !HasAt(a + rest, pat, i)
    {
      match p
      case Lit(l) =>
        assert NoUnfinished(l, pat);
        StraddleIsUnfinished(a, rest, pat, i);
      case Tok(u) =>
        OccurrenceStart(a + rest, pat, i);
        assert (a + rest)[i] == a[i];
        if Rank(u) >= k {
          TokenOnlyAtBrace(a + rest, t, u, i);
        }
    }
  }

  /** The `k`-th pass turns a part as it stands after `k` passes into the part after `k + 1`. */
  lemma StagePartPass(p: Part, ctx: Context, k: nat)
    requires k < 5
    requires RescannedValuesBraceFree(ctx)
    requires p.Lit? ==> LiteralSafe(p.text)
    ensures Pass(StagePart(p, ctx, k), TokenOfRank(k), ctx) == StagePart(p, ctx, k + 1)
  {
    var t := TokenOfRank(k);
    var a := StagePart(p, ctx, k);
    match p
    case Lit(l) =>
      ReplaceAbsent(l, TokenText(t), TokenValue(t, ctx));
    case Tok(u) =>
      if Rank(u) < k {
        assert BraceFree(TokenValue(u, ctx));
        NoTokenInBraceFree(a, t);
        ReplaceAbsent(a, TokenText(t), TokenValue(t, ctx));
      } else if Rank(u) == k {
        assert u == t;
        ReplaceWhole(TokenText(t), TokenValue(t, ctx));
      } else {
        NoTokenInOtherToken(t, u);
        ReplaceAbsent(a, TokenText(t), TokenValue(t, ctx));
      }
  }

  /** The `k`-th pass turns the whole string after `k` passes into the string after `k + 1`. */
  lemma {:induction false} StagePass(parts: seq<Part>, ctx: Context, k: nat)
    requires k < 5
    requires RescannedValuesBraceFree(ctx) && LiteralsSafe(parts)
    ensures Pass(Stage(parts, ctx, k), TokenOfRank(k), ctx) == Stage(parts, ctx, k + 1)
    decreases |parts|
  {
    var t := TokenOfRank(k);
    if parts == [] {
      assert Stage(parts, ctx, k) == "";
    } else {
      var a, rest := StagePart(parts[0], ctx, k), Stage(parts[1..], ctx, k);
      assert LiteralsSafe(parts[1..]) by {
        forall j | 0 <= j < |parts[1..]| ensures parts[1..][j] == parts[j + 1] { }
      }
      assert parts[0].Lit? ==> LiteralSafe(parts[0].text);
      StagePartNoStraddle(parts[0], rest, ctx, k);
      ReplaceConcat(a, rest, TokenText(t), TokenValue(t, ctx));
      StagePartPass(parts[0], ctx, k);
      StagePass(parts[1..], ctx, k);
    }
  }

  lemma {:induction false} StageZeroIsText(parts: seq<Part>, ctx: Context)
    ensures Stage(parts, ctx, 0) == Text(parts)
    decreases |parts|
  {
    if parts != [] {
      StageZeroIsText(parts[1..], ctx);
    }
  }

  lemma {:induction false} StageFiveIsRender(parts: seq<Part>, ctx: Context)
    ensures Stage(parts, ctx, 5) == Render(parts, ctx)
    decreases |parts|
  {
    if parts != [] {
      StageFiveIsRender(parts[1..], ctx);
    }
  }

  /**
    A format made of safe literal text (unknown `{...}` tokens included) and
    placeholders renders to the literals kept and every placeholder replaced
    by its value, provided no value has an opening brace (so no value is
    expanded again by a later pass).
   */
  lemma FolderNameRendersParts(parts: seq<Part>, ctx: Context)
    requires RescannedValuesBraceFree(ctx) && LiteralsSafe(parts)
    ensures FolderName(Text(parts), ctx) == Render(parts, ctx)
  {
    StageZeroIsText(parts, ctx);
    var s0 := Stage(parts, ctx, 0);
    StagePass(parts, ctx, 0);
    assert Pass(s0, Name, ctx) == Stage(parts, ctx, 1);
    StagePass(parts, ctx, 1);
    assert Pass(Stage(parts, ctx, 1), Package, ctx) == Stage(parts, ctx, 2);
    StagePass(parts, ctx, 2);
    assert Pass(Stage(parts, ctx, 2), Version, ctx) == Stage(parts, ctx, 3);
    StagePass(parts, ctx, 3);
    assert Pass(Stage(parts, ctx, 3), Bundle, ctx) == Stage(parts, ctx, 4);
    StagePass(parts, ctx, 4);
    assert Pass(Stage(parts, ctx, 4), Date, ctx) == Stage(parts, ctx, 5);
    StageFiveIsRender(parts, ctx);
  }

  /** A format holding none of the five placeholders (unknown `{...}` included) is returned unchanged. */
  lemma FolderNameWithoutTokens(format: string, ctx: Context)
    requires forall t: Token :: !Contains(format, TokenText(t))
    ensures FolderName(format, ctx) == format
  {
    ReplaceAbsent(format, TokenText(Name), ctx.productName);
    ReplaceAbsent(format, TokenText(Package), ctx.identifier);
    ReplaceAbsent(format, TokenText(Version), ctx.version);
    ReplaceAbsent(format, TokenText(Bundle), ctx.bundleCode);
    ReplaceAbsent(format, TokenText(Date), ctx.date);
  }

  /** The default format `{package}_{date}` yields the identifier, an underscore and the date. */
  lemma DefaultFolderName(ctx: Context)
    requires RescannedValuesBraceFree(ctx)
    ensures FolderName("{package}_{date}", ctx) == ctx.identifier + "_" + ctx.date
  {
    var parts := [Tok(Package), Lit("_"), Tok(Date)];
    assert parts[1..] == [Lit("_"), Tok(Date)];
    assert parts[1..][1..] == [Tok(Date)];
    assert parts[1..][1..][1..] == [];
    assert Text(parts) == "{package}_{date}";
    assert Render(parts[1..][1..], ctx) == ctx.date;
    assert Render(parts[1..], ctx) == "_" + ctx.date;
    assert Render(parts, ctx) == ctx.identifier + "_" + ctx.date;
    BraceFreeLiteralSafe("_");
    assert LiteralsSafe(parts);
    FolderNameRendersParts(parts, ctx);
  }

  /** The unknown token `{x}` is safe literal text. */
  lemma UnknownTokenSafe()
    ensures LiteralSafe("{x}")
  {
    var l := "{x}";
    forall t: Token
      ensures !Contains(l, TokenText(t)) && NoUnfinished(l, TokenText(t))
    {
      var pat := TokenText(t);
      assert |pat| >= 6 && pat[1] != 'x';
      forall i | 0 <= i < |l| < i + |pat|
        ensures l[i..] != pat[..|l| - i]
      {
        assert l[i..][0] == l[i];
        if i == 0 {
          assert l[i..][1] == 'x';
        }
      }
    }
  }

  /** An unknown `{...}` token is kept verbatim next to a known placeholder. */
  lemma UnknownTokenKept(ctx: Context)
    requires RescannedValuesBraceFree(ctx)
    ensures FolderName("{x}{date}", ctx) == "{x}" + ctx.date
  {
    var parts := [Lit("{x}"), Tok(Date)];
    assert parts[1..] == [Tok(Date)];
    assert parts[1..][1..] == [];
    assert Text(parts) == "{x}{date}";
    assert Render(parts[1..], ctx) == ctx.date;
    assert Render(parts, ctx) == "{x}" + ctx.date;
    UnknownTokenSafe();
    assert LiteralsSafe(parts);
    FolderNameRendersParts(parts, ctx);
  }

  /** A value holding a placeholder of a LATER pass is expanded by that pass. */
  lemma LaterTokenInValueExpands(ctx: Context)
    requires ctx.productName == "{date}"
    ensures FolderName("{name}", ctx) == ctx.date
  {
    ReplaceWhole("{name}", "{date}");
    NoTokenInOtherToken(Package, Date);
    ReplaceAbsent("{date}", "{package}", ctx.identifier);
    NoTokenInOtherToken(Version, Date);
    ReplaceAbsent("{date}", "{version}", ctx.version);
    NoTokenInOtherToken(Bundle, Date);
    ReplaceAbsent("{date}", "{bundle}", ctx.bundleCode);
    ReplaceWhole("{date}", ctx.date);
  }

  /** A value holding a placeholder of an EARLIER pass is left as it is. */
  lemma EarlierTokenInValueStays(ctx: Context)
    requires ctx.date == "{name}"
    ensures FolderName("{date}", ctx) == "{name}"
  {
    NoTokenInOtherToken(Name, Date);
    ReplaceAbsent("{date}", "{name}", ctx.productName);
    NoTokenInOtherToken(Package, Date);
    ReplaceAbsent("{date}", "{package}", ctx.identifier);
    NoTokenInOtherToken(Version, Date);
    ReplaceAbsent("{date}", "{version}", ctx.version);
    NoTokenInOtherToken(Bundle, Date);
    ReplaceAbsent("{date}", "{bundle}", ctx.bundleCode);
    ReplaceWhole("{date}", "{name}");
  }
}
