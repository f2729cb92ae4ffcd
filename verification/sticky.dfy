/**
 * Messages as the bot sees them, the payload it posts for a sticky
 * configuration, and the test it uses to recognise its own sticky posts when
 * it sweeps a channel. The test appears twice in the source, once in the
 * startup sweep and once before every repost; it is defined once here.
 */
module Sticky {
  import opened Wrappers
  import opened Text
  import opened Template
  import Color

  type MessageId = string
  type UserId = string
  type ChannelId = string

  /** The first embed of a message: description, footer text (absent or set) and colour. */
  datatype Embed = Embed(description: string, footerText: Option<string>, color: string)

  /** A channel message: id, author, text content and embeds. */
  datatype Message = Message(id: MessageId, authorId: UserId, content: string, embeds: seq<Embed>)

  /** What the bot hands to `channel.send`: one embed, or plain text. */
  datatype Payload = EmbedPost(embed: Embed) | TextPost(text: string)

  const Pin := "📌"
  const DefaultFooter := "📌 This is a sticky message"
  const DefaultEmbedColor := "#FFFF00"
  /** How many characters of the configured template the content test looks for. */
  const TemplatePrefixLength := 30

  function Min(a: nat, b: nat): nat {
    if a <= b then a else b
  }

  /** The first `TemplatePrefixLength` characters of the template. */
  function TemplatePrefix(template: string): string {
    template[..Min(TemplatePrefixLength, |template|)]
  }

  /** The footer test: the first embed's footer (empty when absent) mentions the pin or the word sticky. */
  predicate FooterLooksSticky(m: Message) {
    |m.embeds| > 0 &&
    var footer := m.embeds[0].footerText.GetOr("");
    Contains(footer, Pin) || Contains(Lower(footer), "sticky") || Contains(footer, "This is a sticky message")
  }

  /** The content test: non-empty content with the plain-text footer markers or the template's opening. */
  predicate ContentLooksSticky(m: Message, template: string) {
    m.content != [] &&
    (Contains(m.content, "*" + Pin)
     || Contains(m.content, DefaultFooter)
     || Contains(Lower(m.content), "*sticky message*")
     || (template != [] && Contains(m.content, TemplatePrefix(template))))
  }

  /** A bot message is taken for a sticky post of the configuration whose template is `template`. */
  predicate IsStickyLike(m: Message, template: string) {
    FooterLooksSticky(m) || ContentLooksSticky(m, template)
  }

  /** The footer: the rendered custom footer when one is set (non-empty), else the default. */
  function Footer(customFooter: Option<string>, ctx: RenderContext): string {
    if customFooter.Some? && customFooter.value != [] then ProcessMessageContent(customFooter, ctx)
    else DefaultFooter
  }

  /**
   * The line appended to a plain-text post, as the source writes it: one
   * branch for a footer other than the default, one for the default.
   */
  function PlainFooterLine(footer: string): string {
    if footer != DefaultFooter then "\n\n*" + footer + "*" else "\n\n*📌 This is a sticky message*"
  }

  /** The payload for a configuration: rendered template, footer, and the embed colour or the default. */
  function BuildPayload(content: string, useEmbed: bool, customFooter: Option<string>,
                        embedColor: Option<string>, ctx: RenderContext): (r: Payload)
    ensures r.EmbedPost? <==> useEmbed
  {
    var rendered := ProcessMessageContent(Some(content), ctx);
    var footer := Footer(customFooter, ctx);
    if useEmbed then
      var color := if embedColor.Some? && embedColor.value != [] then embedColor.value else DefaultEmbedColor;
      EmbedPost(Embed(rendered, Some(footer), color))
    else
      TextPost(rendered + PlainFooterLine(footer))
  }

  /** The message the platform creates for a payload. */
  function Posted(id: MessageId, botId: UserId, payload: Payload): Message {
    match payload
    case EmbedPost(e) => Message(id, botId, "", [e])
    case TextPost(t) => Message(id, botId, t, [])
  }

  /** Both branches of the plain-text footer line give the footer in italics after a blank line. */
  lemma PlainFooterLineUniform(footer: string)
    ensures PlainFooterLine(footer) == "\n\n*" + footer + "*"
  {
    if footer == DefaultFooter {
      assert "\n\n*" + DefaultFooter + "*" == "\n\n*📌 This is a sticky message*";
    }
  }

  /** A plain-text post is the rendered template, a blank line and the footer in italics. */
  lemma PlainPayloadShape(content: string, customFooter: Option<string>, embedColor: Option<string>, ctx: RenderContext)
    ensures BuildPayload(content, false, customFooter, embedColor, ctx)
         == TextPost(ProcessMessageContent(Some(content), ctx) + "\n\n*" + Footer(customFooter, ctx) + "*")
  {
    PlainFooterLineUniform(Footer(customFooter, ctx));
  }

  /**
   * An embed post carries the rendered template as its description and the
   * footer as its footer text; a template without placeholders is posted
   * as written.
   */
  lemma EmbedPayloadShape(content: string, customFooter: Option<string>, embedColor: Option<string>, ctx: RenderContext)
    ensures var p := BuildPayload(content, true, customFooter, embedColor, ctx);
            p.EmbedPost? && p.embed.description == ProcessMessageContent(Some(content), ctx) &&
            p.embed.footerText == Some(Footer(customFooter, ctx))
    ensures PlaceholderFree(content) ==> BuildPayload(content, true, customFooter, embedColor, ctx).embed.description == content
  {
    if PlaceholderFree(content) {
      ExpandPlaceholderFree(content, ctx);
    }
  }

  /** Without a custom footer the footer is the default; with one it is the rendered custom footer. */
  lemma FooterChoice(customFooter: Option<string>, ctx: RenderContext)
    ensures customFooter.None? || customFooter == Some("") ==> Footer(customFooter, ctx) == DefaultFooter
    ensures customFooter.Some? && customFooter.value != [] && PlaceholderFree(customFooter.value)
            ==> Footer(customFooter, ctx) == customFooter.value
  {
    if customFooter.Some? && customFooter.value != [] && PlaceholderFree(customFooter.value) {
      ExpandPlaceholderFree(customFooter.value, ctx);
    }
  }

  /**
   * An embed's colour is the configured colour when set and the default yellow
   * otherwise; a colour that went through colour resolution is canonical.
   */
  lemma EmbedColorChoice(content: string, customFooter: Option<string>, embedColor: Option<string>, ctx: RenderContext)
    ensures var p := BuildPayload(content, true, customFooter, embedColor, ctx);
            p.EmbedPost? && p.embed.color == (if embedColor.Some? && embedColor.value != [] then embedColor.value else DefaultEmbedColor)
    ensures forall input: Option<string> :: embedColor == Some(Color.ProcessColor(input)) ==>
            Color.IsCanonical(BuildPayload(content, true, customFooter, embedColor, ctx).embed.color)
  {
  }

  /** The default footer carries the pin, so it passes the footer test. */
  lemma DefaultFooterMarks()
    ensures Contains(DefaultFooter, Pin)
    ensures Contains("\n\n*" + DefaultFooter + "*", "*" + Pin)
  {
    var rest := " This is a sticky message";
    DefaultFooterSplit();
    ContainsMiddle([], Pin, rest);
    assert [] + Pin + rest == Pin + rest;
    Regroup("\n\n", Pin, rest);
    ContainsMiddle("\n\n", "*" + Pin, rest + "*");
  }

  lemma DefaultFooterSplit()
    ensures DefaultFooter == Pin + " This is a sticky message"
  {
  }

  lemma Regroup(a: string, p: string, r: string)
    ensures a + "*" + (p + r) + "*" == a + ("*" + p) + (r + "*")
  {
  }

  /** A string containing `t` keeps containing it when something is put in front. */
  lemma ContainsAfter(a: string, s: string, t: string)
    requires Contains(s, t)
    ensures Contains(a + s, t)
  {
    ContainsIff(s, t);
    var i :| OccursAt(s, t, i);
    assert (a + s)[|a| + i..|a| + i + |t|] == s[i..i + |t|];
    assert OccursAt(a + s, t, |a| + i);
    ContainsIff(a + s, t);
  }

  /**
   * What the bot posts with the default footer, embed or plain, is later
   * recognised by its own test, whatever the template and the rendering
   * context.
   */
  lemma DefaultFooterPostRecognised(id: MessageId, botId: UserId, content: string, useEmbed: bool,
                                    customFooter: Option<string>, embedColor: Option<string>,
                                    ctx: RenderContext, template: string)
    requires customFooter.None? || customFooter == Some("")
    ensures IsStickyLike(Posted(id, botId, BuildPayload(content, useEmbed, customFooter, embedColor, ctx)), template)
  {
    FooterChoice(customFooter, ctx);
    DefaultFooterMarks();
    var m := Posted(id, botId, BuildPayload(content, useEmbed, customFooter, embedColor, ctx));
    if useEmbed {
      assert m.embeds[0].footerText.GetOr("") == DefaultFooter;
      assert FooterLooksSticky(m);
    } else {
      PlainPayloadShape(content, customFooter, embedColor, ctx);
      var rendered := ProcessMessageContent(Some(content), ctx);
      assert m.content == rendered + ("\n\n*" + DefaultFooter + "*");
      ContainsAfter(rendered, "\n\n*" + DefaultFooter + "*", "*" + Pin);
      assert ContentLooksSticky(m, template);
    }
  }

  /**
   * A plain-text post of a non-empty template without placeholders is
   * recognised through the template test, whatever its footer says.
   */
  lemma PlainTemplatePostRecognised(id: MessageId, botId: UserId, content: string,
                                    customFooter: Option<string>, embedColor: Option<string>, ctx: RenderContext)
    requires content != [] && PlaceholderFree(content)
    ensures IsStickyLike(Posted(id, botId, BuildPayload(content, false, customFooter, embedColor, ctx)), content)
  {
    ExpandPlaceholderFree(content, ctx);
    PlainPayloadShape(content, customFooter, embedColor, ctx);
    var m := Posted(id, botId, BuildPayload(content, false, customFooter, embedColor, ctx));
    var tail := "\n\n*" + Footer(customFooter, ctx) + "*";
    assert m.content == content + tail;
    ContainsPrefixOfPiece([], content, tail, Min(TemplatePrefixLength, |content|));
    assert [] + content + tail == m.content;
    assert ContentLooksSticky(m, content);
  }

  /**
   * The gap in the round trip: an embed post whose custom footer mentions
   * neither the pin nor "sticky" has empty content and an unmarked footer, so
   * the bot does not recognise it. Only the stored message id can remove it.
   */
  lemma CustomFooterEmbedNotRecognised(id: MessageId, botId: UserId, content: string,
                                       embedColor: Option<string>, ctx: RenderContext, template: string)
    ensures !IsStickyLike(Posted(id, botId, BuildPayload(content, true, Some("Rules"), embedColor, ctx)), template)
  {
    FooterChoice(Some("Rules"), ctx);
    var m := Posted(id, botId, BuildPayload(content, true, Some("Rules"), embedColor, ctx));
    var footer := m.embeds[0].footerText.GetOr("");
    assert footer == Footer(Some("Rules"), ctx);
    assert PlaceholderFree("Rules") by {
      RulesPlaceholderFree();
    }
    assert footer == "Rules";
    assert Lower("Rules") == "rules";
    NotContainsChar("Rules", Pin, Pin[0]);
    NotContainsChar("rules", "sticky", 'y');
    NotContainsChar("Rules", "This is a sticky message", 'y');
  }

  lemma RulesPlaceholderFree()
    ensures PlaceholderFree("Rules")
  {
    assert Lower("Rules") == "rules";
    forall k | 0 <= k < |PlaceholderNames|
      ensures !Contains("rules", "{" + PlaceholderNames[k] + "}")
    {
      NotContainsChar("rules", "{" + PlaceholderNames[k] + "}", '{');
    }
  }
}
