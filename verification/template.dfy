/**
 * Placeholder expansion (`processMessageContent`): a template is rewritten by
 * twelve `String.prototype.replace` calls with global regular expressions, in
 * a fixed order. Each pass scans its input left to right and does not rescan
 * what it inserted, but later passes do see the values earlier passes
 * inserted.
 */
module Template {
  import opened Wrappers
  import opened Text

  /**
   * What the renderer reads from the channel and the clock: the guild's name,
   * the channel's name, the guild's member count and the three locale strings
   * of the current time.
   */
  datatype RenderContext = RenderContext(
    guildName: string,
    channelName: string,
    memberCount: nat,
    time: string,
    date: string,
    dateTime: string)

  /**
   * One `.replace(/{name}/g, value)` call, with the `i` flag when `ignoreCase`.
   * Every pattern is a placeholder name between braces.
   */
  datatype Pass = Pass(name: string, ignoreCase: bool, value: string)

  function Pattern(p: Pass): string {
    "{" + p.name + "}"
  }

  /** The six placeholder names, in lower case. */
  const PlaceholderNames: seq<string> :=
    ["server_name", "time", "date", "datetime", "channel_name", "member_count"]

  /** Each pass's name and whether it has the `i` flag, in the order the source applies them. */
  const PassTable: seq<(string, bool)> := [
    ("server_name", true), ("Server_name", false), ("SERVER_NAME", false),
    ("time", true), ("date", true), ("datetime", true),
    ("channel_name", true), ("Channel_name", false), ("CHANNEL_NAME", false),
    ("member_count", true), ("Member_count", false), ("MEMBER_COUNT", false)]

  /** What the `k`-th pass inserts. */
  function PassValue(k: nat, ctx: RenderContext): string {
    if k < 3 then ctx.guildName
    else if k == 3 then ctx.time
    else if k == 4 then ctx.date
    else if k == 5 then ctx.dateTime
    else if k < 9 then ctx.channelName
    else NatToString(ctx.memberCount)
  }

  function Passes(ctx: RenderContext): seq<Pass> {
    seq(|PassTable|, k requires 0 <= k < |PassTable| => Pass(PassTable[k].0, PassTable[k].1, PassValue(k, ctx)))
  }

  /**
   * `s` starts with the pass's pattern. Under the `i` flag the comparison is
   * by ASCII case folding; for these all-ASCII patterns that is exactly the
   * canonicalisation a non-Unicode JavaScript regular expression uses.
   */
  predicate StartsWithPattern(s: string, p: Pass) {
    var pat := Pattern(p);
    |pat| <= |s| &&
    if p.ignoreCase then Lower(s[..|pat|]) == Lower(pat) else s[..|pat|] == pat
  }

  /** Every non-overlapping occurrence, leftmost first, replaced by the value. */
  function ReplaceAll(s: string, p: Pass): string
    decreases |s|
  {
    if |s| < |Pattern(p)| then s
    else if StartsWithPattern(s, p) then p.value + ReplaceAll(s[|Pattern(p)|..], p)
    else [s[0]] + ReplaceAll(s[1..], p)
  }

  function ApplyPasses(s: string, passes: seq<Pass>): string
    decreases |passes|
  {
    if passes == [] then s else ApplyPasses(ReplaceAll(s, passes[0]), passes[1..])
  }

  /** `processMessageContent`: an absent or empty template renders as the empty string. */
  function ProcessMessageContent(content: Option<string>, ctx: RenderContext): string {
    if content.None? || content.value == [] then []
    else ApplyPasses(content.value, Passes(ctx))
  }

  /** No placeholder `{name}` occurs in `s` in any letter case. */
  predicate PlaceholderFree(s: string) {
    forall k :: 0 <= k < |PlaceholderNames| ==> !Contains(Lower(s), "{" + PlaceholderNames[k] + "}")
  }

  lemma LowerSplit(s: string, n: nat)
    requires n <= |s|
    ensures |Lower(s)| == |s| && Lower(s[..n]) == Lower(s)[..n] && Lower(s[n..]) == Lower(s)[n..]
  {
    LowerAt(s);
    LowerAt(s[..n]);
    LowerAt(s[n..]);
  }

  lemma LowerConcat(a: string, b: string)
    ensures Lower(a + b) == Lower(a) + Lower(b)
  {
    LowerAt(a);
    LowerAt(b);
    LowerAt(a + b);
  }

  /** A pass whose pattern does not occur, in any case, leaves the text alone. */
  lemma {:induction false} ReplaceAllAbsent(s: string, p: Pass)
    requires !Contains(Lower(s), Lower(Pattern(p)))
    ensures ReplaceAll(s, p) == s
    decreases |s|
  {
    var n := |Pattern(p)|;
    if |s| >= n {
      LowerSplit(s, n);
      LowerAt(Pattern(p));
      LowerSplit(s, 1);
      assert !Contains(Lower(s[1..]), Lower(Pattern(p)));
      ReplaceAllAbsent(s[1..], p);
    }
  }

  /** The passes' names with ASCII letters lower-cased, in pass order. */
  const FoldedNames: seq<string> := [
    "server_name", "server_name", "server_name", "time", "date", "datetime",
    "channel_name", "channel_name", "channel_name", "member_count", "member_count", "member_count"]

  lemma PassNames(ctx: RenderContext)
    ensures |Passes(ctx)| == |FoldedNames|
    ensures forall k :: 0 <= k < |FoldedNames| ==> Lower(Passes(ctx)[k].name) == FoldedNames[k]
    ensures forall k :: 0 <= k < |FoldedNames| ==> BraceFree(Passes(ctx)[k].name)
  {
    TableFolded();
    TableBraceFree();
  }

  lemma TableFolded()
    ensures |PassTable| == |FoldedNames|
    ensures forall k :: 0 <= k < |FoldedNames| ==> Lower(PassTable[k].0) == FoldedNames[k]
  {
  }

  lemma FoldedInPlaceholders()
    ensures forall k :: 0 <= k < |FoldedNames| ==> FoldedNames[k] in PlaceholderNames
  {
  }

  lemma TableBraceFree()
    ensures forall k :: 0 <= k < |PassTable| ==> BraceFree(PassTable[k].0)
  {
  }

  /** Each pattern folds to `{name}` for one of the six placeholder names. */
  lemma PassPatterns(ctx: RenderContext)
    ensures forall i :: 0 <= i < |Passes(ctx)| ==>
      Lower(Pattern(Passes(ctx)[i])) == "{" + FoldedNames[i] + "}" && FoldedNames[i] in PlaceholderNames
  {
    PassNames(ctx);
    FoldedInPlaceholders();
    forall i | 0 <= i < |Passes(ctx)|
      ensures Lower(Pattern(Passes(ctx)[i])) == "{" + FoldedNames[i] + "}"
    {
      var name := Passes(ctx)[i].name;
      LowerConcat("{" + name, "}");
      LowerConcat("{", name);
    }
  }

  lemma {:induction false} ApplyPassesAbsent(s: string, passes: seq<Pass>)
    requires forall i :: 0 <= i < |passes| ==> !Contains(Lower(s), Lower(Pattern(passes[i])))
    ensures ApplyPasses(s, passes) == s
    decreases |passes|
  {
    if passes != [] {
      ReplaceAllAbsent(s, passes[0]);
      ApplyPassesAbsent(s, passes[1..]);
    }
  }

  /** A template without any placeholder pattern, in any case, is posted as written. */
  lemma ExpandPlaceholderFree(s: string, ctx: RenderContext)
    requires PlaceholderFree(s)
    ensures ProcessMessageContent(Some(s), ctx) == s
  {
    if s != [] {
      PassPatterns(ctx);
      ApplyPassesAbsent(s, Passes(ctx));
    }
  }

  /** An absent or empty template renders as the empty string. */
  lemma ExpandEmpty(ctx: RenderContext)
    ensures ProcessMessageContent(None, ctx) == []
    ensures ProcessMessageContent(Some([]), ctx) == []
  {
  }

  // Templates as a sequence of brace-free text and `{name}` tokens. When no
  // inserted value contains `{`, expansion works token by token, and each
  // token resolves to the value of its name, compared case-insensitively.

  datatype Segment = Text(text: string) | Token(name: string)

  predicate BraceFree(s: string) {
    '{' !in s && '}' !in s
  }

  /** Text holds no `{` (so no match can start inside it), and a token's name holds no brace. */
  predicate WellFormed(segs: seq<Segment>) {
    forall i :: 0 <= i < |segs| ==>
      match segs[i]
      case Text(t) => '{' !in t
      case Token(n) => BraceFree(n)
  }

  function Piece(seg: Segment): string {
    match seg
    case Text(t) => t
    case Token(n) => "{" + n + "}"
  }

  function Render(segs: seq<Segment>): string
    decreases |segs|
  {
    if segs == [] then [] else Piece(segs[0]) + Render(segs[1..])
  }

  /** The pass's regular expression matches exactly the token `{n}`. */
  predicate TokenMatches(n: string, p: Pass) {
    if p.ignoreCase then Lower(n) == Lower(p.name) else n == p.name
  }

  /** What one pass does to one segment. */
  function Step(seg: Segment, p: Pass): Segment {
    if seg.Token? && TokenMatches(seg.name, p) then Text(p.value) else seg
  }

  /** What a sequence of passes does to one segment. */
  function Fold(seg: Segment, passes: seq<Pass>): Segment
    decreases |passes|
  {
    if passes == [] then seg else Fold(Step(seg, passes[0]), passes[1..])
  }

  lemma LowerBrace(c: char)
    ensures LowerChar(c) == '{' <==> c == '{'
    ensures LowerChar(c) == '}' <==> c == '}'
  {
  }

  /** Text without `{` is copied through: every pattern starts with `{`. */
  lemma {:induction false} ReplaceAllSkipsText(x: string, y: string, p: Pass)
    requires '{' !in x
    ensures ReplaceAll(x + y, p) == x + ReplaceAll(y, p)
    decreases |x|
  {
    if x != [] {
      var s := x + y;
      var pat := Pattern(p);
      if |s| >= |pat| {
        LowerBrace(s[0]);
        LowerAt(s[..|pat|]);
        LowerAt(pat);
        assert !StartsWithPattern(s, p) by {
          assert s[0] == x[0] && x[0] != '{' && pat[0] == '{';
          assert s[..|pat|][0] != pat[0];
          assert Lower(s[..|pat|])[0] != Lower(pat)[0];
        }
        assert ReplaceAll(s, p) == [s[0]] + ReplaceAll(s[1..], p);
        assert s[1..] == x[1..] + y;
        ReplaceAllSkipsText(x[1..], y, p);
        assert x + ReplaceAll(y, p) == [x[0]] + (x[1..] + ReplaceAll(y, p));
      } else {
        assert ReplaceAll(y, p) == y;
      }
    } else {
      assert x + y == y;
    }
  }

  /** `{n}` followed by anything starts with the pattern exactly when the pattern matches the token. */
  lemma StartsWithToken(n: string, y: string, p: Pass)
    requires BraceFree(n) && BraceFree(p.name)
    ensures StartsWithPattern("{" + n + "}" + y, p) <==> TokenMatches(n, p)
  {
    var tok := "{" + n + "}";
    var s := tok + y;
    var pat := Pattern(p);
    LowerAt(n);
    LowerAt(p.name);
    if TokenMatches(n, p) {
      LowerConcat("{" + n, "}");
      LowerConcat("{", n);
      LowerConcat("{" + p.name, "}");
      LowerConcat("{", p.name);
      assert s[..|pat|] == tok;
    } else if |pat| <= |s| {
      var w := s[..|pat|];
      LowerAt(w);
      LowerAt(pat);
      if |n| == |p.name| {
        assert w == tok;
        assert n == w[1..|n| + 1] && p.name == pat[1..|n| + 1];
        if p.ignoreCase {
          LowerConcat("{" + n, "}");
          LowerConcat("{", n);
          LowerConcat("{" + p.name, "}");
          LowerConcat("{", p.name);
          assert Lower(n) == Lower(w)[1..|n| + 1];
          assert Lower(p.name) == Lower(pat)[1..|n| + 1];
        }
      } else {
        var j := if |n| < |p.name| then |n| + 1 else |p.name| + 1;
        assert w[j] == '}' <==> pat[j] != '}';
        LowerBrace(w[j]);
        LowerBrace(pat[j]);
        assert Lower(w)[j] != Lower(pat)[j];
      }
    }
  }

  /** A token `{n}` is replaced when the pass's pattern matches it and copied through otherwise. */
  lemma ReplaceAllToken(n: string, y: string, p: Pass)
    requires BraceFree(n) && BraceFree(p.name)
    ensures ReplaceAll("{" + n + "}" + y, p)
         == (if TokenMatches(n, p) then p.value else "{" + n + "}") + ReplaceAll(y, p)
  {
    var s := "{" + n + "}" + y;
    StartsWithToken(n, y, p);
    if TokenMatches(n, p) {
      LowerAt(n);
      LowerAt(p.name);
      assert |n| == |p.name|;
      assert s[|Pattern(p)|..] == y;
    } else if |s| >= |Pattern(p)| {
      assert s[1..] == (n + "}") + y;
      ReplaceAllSkipsText(n + "}", y, p);
    } else {
      assert ReplaceAll(y, p) == y;
    }
  }

  /** One pass over a well-formed template rewrites it segment by segment. */
  lemma {:induction false} ReplaceAllSegments(segs: seq<Segment>, p: Pass)
    requires WellFormed(segs) && BraceFree(p.name)
    ensures ReplaceAll(Render(segs), p) == Render(seq(|segs|, i requires 0 <= i < |segs| => Step(segs[i], p)))
    decreases |segs|
  {
    var stepped := seq(|segs|, i requires 0 <= i < |segs| => Step(segs[i], p));
    if segs != [] {
      assert WellFormed(segs[1..]);
      ReplaceAllSegments(segs[1..], p);
      assert stepped[1..] == seq(|segs[1..]|, i requires 0 <= i < |segs[1..]| => Step(segs[1..][i], p));
      match segs[0]
      case Text(t) =>
        ReplaceAllSkipsText(t, Render(segs[1..]), p);
      case Token(n) =>
        ReplaceAllToken(n, Render(segs[1..]), p);
    }
  }

  /** Passes that insert no `{` expand a well-formed template segment by segment. */
  lemma {:induction false} ApplyPassesSegments(segs: seq<Segment>, passes: seq<Pass>)
    requires WellFormed(segs)
    requires forall k :: 0 <= k < |passes| ==> BraceFree(passes[k].name) && '{' !in passes[k].value
    ensures ApplyPasses(Render(segs), passes)
         == Render(seq(|segs|, i requires 0 <= i < |segs| => Fold(segs[i], passes)))
    decreases |passes|
  {
    if passes != [] {
      var stepped := seq(|segs|, i requires 0 <= i < |segs| => Step(segs[i], passes[0]));
      ReplaceAllSegments(segs, passes[0]);
      assert WellFormed(stepped);
      ApplyPassesSegments(stepped, passes[1..]);
      forall i | 0 <= i < |segs|
        ensures Fold(stepped[i], passes[1..]) == Fold(segs[i], passes)
      {
      }
      assert seq(|stepped|, i requires 0 <= i < |stepped| => Fold(stepped[i], passes[1..]))
          == seq(|segs|, i requires 0 <= i < |segs| => Fold(segs[i], passes));
    } else {
      assert seq(|segs|, i requires 0 <= i < |segs| => Fold(segs[i], passes)) == segs;
    }
  }

  /** The value a token stands for: its name is compared with the six names case-insensitively. */
  function Resolve(n: string, ctx: RenderContext): Segment {
    var key := Lower(n);
    if key == "server_name" then Text(ctx.guildName)
    else if key == "time" then Text(ctx.time)
    else if key == "date" then Text(ctx.date)
    else if key == "datetime" then Text(ctx.dateTime)
    else if key == "channel_name" then Text(ctx.channelName)
    else if key == "member_count" then Text(NatToString(ctx.memberCount))
    else Token(n)
  }

  lemma {:induction false} FoldText(t: string, passes: seq<Pass>)
    ensures Fold(Text(t), passes) == Text(t)
    decreases |passes|
  {
    if passes != [] {
      FoldText(t, passes[1..]);
    }
  }

  /**
   * A token runs through passes that do not match it until a case-insensitive
   * pass for its name replaces it; after that the text stays.
   */
  lemma {:induction false} FoldFirstHit(n: string, passes: seq<Pass>, k: nat)
    requires k <= |passes|
    requires forall j :: 0 <= j < k ==> Lower(passes[j].name) != Lower(n)
    requires k < |passes| ==> passes[k].ignoreCase && Lower(passes[k].name) == Lower(n)
    ensures Fold(Token(n), passes) == if k < |passes| then Text(passes[k].value) else Token(n)
    decreases k
  {
    if k == 0 {
      if passes != [] {
        FoldText(passes[0].value, passes[1..]);
      }
    } else {
      assert Step(Token(n), passes[0]) == Token(n);
      FoldFirstHit(n, passes[1..], k - 1);
    }
  }

  /**
   * Each token resolves to the value of its name, whatever its letter case; the
   * case-sensitive passes never find anything the case-insensitive pass for the
   * same name left behind.
   */
  lemma FoldToken(n: string, ctx: RenderContext)
    ensures Fold(Token(n), Passes(ctx)) == Resolve(n, ctx)
  {
    var ps := Passes(ctx);
    var key := Lower(n);
    PassNames(ctx);
    var hit: nat :=
      if key == "server_name" then 0
      else if key == "time" then 3
      else if key == "date" then 4
      else if key == "datetime" then 5
      else if key == "channel_name" then 6
      else if key == "member_count" then 9
      else 12;
    FoldFirstHit(n, ps, hit);
  }

  /** None of the values the renderer inserts contains `{`. */
  predicate BraceFreeValues(ctx: RenderContext) {
    '{' !in ctx.guildName && '{' !in ctx.time && '{' !in ctx.date
    && '{' !in ctx.dateTime && '{' !in ctx.channelName
  }

  /** The reference expansion: every token replaced by what its name resolves to. */
  function Expanded(segs: seq<Segment>, ctx: RenderContext): seq<Segment> {
    seq(|segs|, i requires 0 <= i < |segs| =>
      match segs[i]
      case Text(t) => Text(t)
      case Token(n) => Resolve(n, ctx))
  }

  /**
   * When no inserted value contains `{`, the twelve passes together replace
   * each `{name}` token by the value its name resolves to, case-insensitively,
   * leave unknown tokens as they are, and copy the text between tokens.
   */
  lemma ExpandTokens(segs: seq<Segment>, ctx: RenderContext)
    requires WellFormed(segs) && BraceFreeValues(ctx)
    ensures ProcessMessageContent(Some(Render(segs)), ctx) == Render(Expanded(segs, ctx))
  {
    var ps := Passes(ctx);
    PassNames(ctx);
    var count := NatToString(ctx.memberCount);
    assert '{' !in count;
    assert forall k :: 0 <= k < |ps| ==> BraceFree(ps[k].name) && '{' !in ps[k].value;
    ApplyPassesSegments(segs, ps);
    forall i | 0 <= i < |segs|
      ensures Fold(segs[i], ps) == Expanded(segs, ctx)[i]
    {
      match segs[i]
      case Text(t) => FoldText(t, ps);
      case Token(n) => FoldToken(n, ctx);
    }
    assert seq(|segs|, i requires 0 <= i < |segs| => Fold(segs[i], ps)) == Expanded(segs, ctx);
    if Render(segs) == [] {
      PassPatterns(ctx);
      ApplyPassesAbsent([], ps);
    }
  }

  /** Running a list of passes is running a prefix of it and then the rest. */
  lemma {:induction false} ApplyPassesSplit(s: string, passes: seq<Pass>, k: nat)
    requires k <= |passes|
    ensures ApplyPasses(s, passes) == ApplyPasses(ApplyPasses(s, passes[..k]), passes[k..])
    decreases k
  {
    if k > 0 {
      ApplyPassesSplit(ReplaceAll(s, passes[0]), passes[1..], k - 1);
      assert passes[..k][1..] == passes[1..][..k - 1];
      assert passes[1..][k - 1..] == passes[k..];
    } else {
      assert passes[..k] == [] && passes[k..] == passes;
    }
  }

  /** `{channel_name} has {member_count} members` in channel `general` of a 42-member guild. */
  lemma ExpandExample(template: string, ctx: RenderContext)
    requires template == "{channel_name}" + " has " + "{member_count}" + " members"
    requires ctx == RenderContext("G", "general", 42, "t", "d", "dt")
    ensures ProcessMessageContent(Some(template), ctx) == "general has 42 members"
  {
    var segs := ExampleTemplate(template);
    ExpandTokens(segs, ctx);
    ExampleExpanded(segs, ctx);
  }

  lemma ExampleTemplate(template: string) returns (segs: seq<Segment>)
    requires template == "{channel_name}" + " has " + "{member_count}" + " members"
    ensures segs == [Token("channel_name"), Text(" has "), Token("member_count"), Text(" members")]
    ensures WellFormed(segs) && Render(segs) == template
  {
    segs := [Token("channel_name"), Text(" has "), Token("member_count"), Text(" members")];
    ExampleWellFormed(segs);
    ExampleSegments(segs, template);
  }

  lemma ExampleWellFormed(segs: seq<Segment>)
    requires segs == [Token("channel_name"), Text(" has "), Token("member_count"), Text(" members")]
    ensures WellFormed(segs)
  {
    forall i | 0 <= i < 4
      ensures match segs[i]
              case Text(t) => '{' !in t
              case Token(n) => BraceFree(n)
    {
      if i == 0 {
        assert BraceFree("channel_name");
      } else if i == 1 {
        assert '{' !in " has ";
      } else if i == 2 {
        assert BraceFree("member_count");
      } else {
        assert '{' !in " members";
      }
    }
  }

  lemma ExampleSegments(segs: seq<Segment>, template: string)
    requires segs == [Token("channel_name"), Text(" has "), Token("member_count"), Text(" members")]
    requires template == "{channel_name}" + " has " + "{member_count}" + " members"
    ensures Render(segs) == template
  {
    RenderTokenTextTokenText("channel_name", " has ", "member_count", " members");
    ExampleTokens();
  }

  lemma ExampleTokens()
    ensures "{" + "channel_name" + "}" == "{channel_name}"
    ensures "{" + "member_count" + "}" == "{member_count}"
  {
  }

  lemma RenderTokenTextTokenText(a: string, b: string, c: string, d: string)
    ensures Render([Token(a), Text(b), Token(c), Text(d)]) == ("{" + a + "}") + b + ("{" + c + "}") + d
  {
    var tail := [Token(c), Text(d)];
    RenderPrepend(Text(d), []);
    RenderPrepend(Token(c), [Text(d)]);
    RenderPrepend(Text(b), tail);
    RenderPrepend(Token(a), [Text(b)] + tail);
    assert [Token(a), Text(b), Token(c), Text(d)] == [Token(a)] + ([Text(b)] + tail);
  }

  lemma RenderPrepend(seg: Segment, segs: seq<Segment>)
    ensures Render([seg] + segs) == Piece(seg) + Render(segs)
  {
    assert ([seg] + segs)[1..] == segs;
  }

  lemma ExampleExpanded(segs: seq<Segment>, ctx: RenderContext)
    requires segs == [Token("channel_name"), Text(" has "), Token("member_count"), Text(" members")]
    requires ctx == RenderContext("G", "general", 42, "t", "d", "dt")
    ensures Render(Expanded(segs, ctx)) == "general has 42 members"
  {
    assert Resolve("channel_name", ctx) == Text("general") by {
      assert Lower("channel_name") == "channel_name";
    }
    assert Resolve("member_count", ctx) == Text("42") by {
      assert Lower("member_count") == "member_count";
      assert NatToString(42) == "42";
    }
    assert Expanded(segs, ctx) == [Text("general"), Text(" has "), Text("42"), Text(" members")];
    ExampleRendered(Expanded(segs, ctx));
  }

  lemma ExampleRendered(out: seq<Segment>)
    requires out == [Text("general"), Text(" has "), Text("42"), Text(" members")]
    ensures Render(out) == "general has 42 members"
  {
    assert Render(out[3..]) == " members";
    assert Render(out[2..]) == "42" + " members";
    assert Render(out[1..]) == " has " + "42" + " members";
  }

  /** Placeholders match in any letter case, and unknown ones stay as written. */
  lemma ExpandCaseExample(template: string, ctx: RenderContext)
    requires template == "{Server_Name}{foo}"
    requires ctx == RenderContext("G", "c", 1, "t", "d", "dt")
    ensures ProcessMessageContent(Some(template), ctx) == "G{foo}"
  {
    var segs := CaseSegments(template);
    ExpandTokens(segs, ctx);
    CaseExpanded(segs, ctx);
  }

  lemma CaseSegments(template: string) returns (segs: seq<Segment>)
    requires template == "{Server_Name}{foo}"
    ensures WellFormed(segs) && Render(segs) == template
    ensures segs == [Token("Server_Name"), Token("foo")]
  {
    segs := [Token("Server_Name"), Token("foo")];
    CaseWellFormed(segs);
    RenderPrepend(Token("foo"), []);
    RenderPrepend(Token("Server_Name"), [Token("foo")]);
    CaseTokens();
  }

  lemma CaseWellFormed(segs: seq<Segment>)
    requires segs == [Token("Server_Name"), Token("foo")]
    ensures WellFormed(segs)
  {
    assert BraceFree("Server_Name") && BraceFree("foo");
  }

  lemma CaseTokens()
    ensures "{" + "Server_Name" + "}" + ("{" + "foo" + "}") == "{Server_Name}{foo}"
  {
  }

  lemma CaseExpanded(segs: seq<Segment>, ctx: RenderContext)
    requires segs == [Token("Server_Name"), Token("foo")]
    requires ctx == RenderContext("G", "c", 1, "t", "d", "dt")
    ensures Render(Expanded(segs, ctx)) == "G{foo}"
  {
    assert Resolve("Server_Name", ctx) == Text("G") by {
      assert Lower("Server_Name") == "server_name";
    }
    assert Resolve("foo", ctx) == Token("foo") by {
      assert Lower("foo") == "foo";
    }
    var out := Expanded(segs, ctx);
    assert out == [Text("G"), Token("foo")];
    assert Render(out[1..]) == "{foo}";
  }

  /** One pass over a lone token. */
  lemma TokenPass(s: string, n: string, p: Pass)
    requires s == "{" + n + "}" && BraceFree(n) && BraceFree(p.name)
    ensures ReplaceAll(s, p) == if TokenMatches(n, p) then p.value else s
  {
    ReplaceAllToken(n, [], p);
    assert s + [] == s;
  }

  /**
   * Later passes see what earlier passes inserted: a guild named
   * `{channel_name}` makes `{server_name}` render as the channel's name.
   */
  lemma ExpandReexpansion(template: string, ctx: RenderContext)
    requires template == "{server_name}" && ctx.guildName == "{channel_name}"
    requires '{' !in ctx.time && '{' !in ctx.date && '{' !in ctx.dateTime && '{' !in ctx.channelName
    ensures ProcessMessageContent(Some(template), ctx) == ctx.channelName
  {
    ApplyPassesSplit(template, Passes(ctx), 3);
    ServerPasses(template, ctx);
    LaterPasses(ApplyPasses(template, Passes(ctx)[..3]), ctx);
  }

  /** The nine passes after the server-name ones expand `{channel_name}` to the channel's name. */
  lemma LaterPasses(s: string, ctx: RenderContext)
    requires s == "{channel_name}"
    requires '{' !in ctx.time && '{' !in ctx.date && '{' !in ctx.dateTime && '{' !in ctx.channelName
    ensures ApplyPasses(s, Passes(ctx)[3..]) == ctx.channelName
  {
    var rest := Passes(ctx)[3..];
    var segs := LoneToken(s, "channel_name");
    LaterValuesBraceFree(ctx);
    ApplyPassesSegments(segs, rest);
    ChannelNameHit(ctx);
    var out := seq(|segs|, i requires 0 <= i < |segs| => Fold(segs[i], rest));
    assert out == [Text(ctx.channelName)];
    assert Render(out) == ctx.channelName + Render([]);
  }

  /** Among the passes after the server-name ones, the first to match `{channel_name}` inserts the channel name. */
  lemma ChannelNameHit(ctx: RenderContext)
    ensures Fold(Token("channel_name"), Passes(ctx)[3..]) == Text(ctx.channelName)
  {
    PassNames(ctx);
    LowerChannelName();
    var rest := Passes(ctx)[3..];
    assert forall j :: 0 <= j < 3 ==> rest[j] == Passes(ctx)[j + 3];
    assert rest[3] == Passes(ctx)[6];
    FoldFirstHit("channel_name", rest, 3);
  }

  lemma LowerChannelName()
    ensures Lower("channel_name") == "channel_name"
  {
    LowerAt("channel_name");
  }

  /** Without `{` in the clock strings and the channel name, no pass after the server-name ones inserts one. */
  lemma LaterValuesBraceFree(ctx: RenderContext)
    requires '{' !in ctx.time && '{' !in ctx.date && '{' !in ctx.dateTime && '{' !in ctx.channelName
    ensures forall k :: 0 <= k < |Passes(ctx)[3..]| ==> BraceFree(Passes(ctx)[3..][k].name) && '{' !in Passes(ctx)[3..][k].value
  {
    PassNames(ctx);
    var count := NatToString(ctx.memberCount);
    assert '{' !in count;
    var rest := Passes(ctx)[3..];
    forall k | 0 <= k < |rest|
      ensures BraceFree(rest[k].name) && '{' !in rest[k].value
    {
      assert rest[k] == Passes(ctx)[k + 3];
    }
  }

  lemma LoneToken(s: string, n: string) returns (segs: seq<Segment>)
    requires s == "{" + n + "}" && BraceFree(n)
    ensures segs == [Token(n)] && WellFormed(segs) && Render(segs) == s
  {
    segs := [Token(n)];
    assert Render(segs) == Piece(Token(n)) + Render([]);
  }

  /** The server-name passes turn `{server_name}` into a guild name of `{channel_name}`, and stop there. */
  lemma ServerPasses(template: string, ctx: RenderContext)
    requires template == "{server_name}" && ctx.guildName == "{channel_name}"
    ensures ApplyPasses(template, Passes(ctx)[..3]) == "{channel_name}"
  {
    var ps := Passes(ctx);
    ApplyThree(template, ps[..3]);
    ServerPass(template, ctx);
    CaseSensitiveServerPasses(ctx.guildName, ctx);
  }

  lemma ApplyThree(s: string, passes: seq<Pass>)
    requires |passes| == 3
    ensures ApplyPasses(s, passes) == ReplaceAll(ReplaceAll(ReplaceAll(s, passes[0]), passes[1]), passes[2])
  {
    var r0 := ReplaceAll(s, passes[0]);
    var r1 := ReplaceAll(r0, passes[1]);
    assert passes[1..][0] == passes[1] && passes[1..][1..][0] == passes[2];
    assert passes[1..][1..][1..] == [];
    assert ApplyPasses(s, passes) == ApplyPasses(r0, passes[1..]);
    assert ApplyPasses(r0, passes[1..]) == ApplyPasses(r1, passes[1..][1..]);
  }

  lemma ServerPass(template: string, ctx: RenderContext)
    requires template == "{server_name}"
    ensures ReplaceAll(template, Passes(ctx)[0]) == ctx.guildName
  {
    PassNames(ctx);
    TokenPass(template, "server_name", Passes(ctx)[0]);
  }

  lemma CaseSensitiveServerPasses(s: string, ctx: RenderContext)
    requires s == "{channel_name}"
    ensures ReplaceAll(ReplaceAll(s, Passes(ctx)[1]), Passes(ctx)[2]) == s
  {
    CaseSensitivePass(s, Passes(ctx)[1], "Server_name");
    CaseSensitivePass(s, Passes(ctx)[2], "SERVER_NAME");
  }

  lemma CaseSensitivePass(s: string, p: Pass, name: string)
    requires s == "{channel_name}"
    requires p.name == name && !p.ignoreCase && name in ["Server_name", "SERVER_NAME"]
    ensures ReplaceAll(s, p) == s
  {
    TokenPass(s, "channel_name", p);
  }
}
