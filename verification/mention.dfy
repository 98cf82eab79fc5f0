/**
 The bot-mention pattern `^<@botUserId>[ \t\r\n]*`: a literal prefix
 followed by a (greedy) run of space, tab, carriage return and line feed.
 */
module Mention {

  /** The mention token Slack writes into message text for the bot user. */
  function MentionToken(botUserId: string): string {
    "<@" + botUserId + ">"
  }

  /** The characters of the class `[ \t\r\n]`. */
  predicate IsMentionSpace(c: char) {
    c == ' ' || c == '\t' || c == '\r' || c == '\n'
  }

  predicate AllMentionSpace(s: string) {
    forall i :: 0 <= i < |s| ==> IsMentionSpace(s[i])
  }

  /** The anchored pattern matches exactly when the text starts with the token. */
  predicate HasMention(text: string, botUserId: string) {
    MentionToken(botUserId) <= text
  }

  /** Removes the longest leading run of mention spaces: what remains is a
      suffix of `s`, everything cut off is space, and the rest does not
      start with a space (the run is maximal). */
  function SkipSpaces(s: string): (r: string)
    ensures |r| <= |s| && r == s[|s| - |r|..]
    ensures AllMentionSpace(s[..|s| - |r|])
    ensures |r| == 0 || !IsMentionSpace(r[0])
    decreases |s|
  {
    if |s| > 0 && IsMentionSpace(s[0]) then
      var r := SkipSpaces(s[1..]);
      assert s[..|s| - |r|] == [s[0]] + s[1..][..|s| - 1 - |r|];
      r
    else
      assert s[..0] == [];
      s
  }

  /** `text` splits as token, a maximal run of mention spaces, then `body`. */
  predicate IsStrippedMention(text: string, botUserId: string, body: string) {
    var n := |MentionToken(botUserId)|;
    && n + |body| <= |text|
    && text[..n] == MentionToken(botUserId)
    && AllMentionSpace(text[n..|text| - |body|])
    && text[|text| - |body|..] == body
    && (|body| == 0 || !IsMentionSpace(body[0]))
  }

  /** `text.replace(pattern, '')` for a text the pattern matches: the token
      and the whitespace run after it are removed and the rest is kept. */
  function StripMention(text: string, botUserId: string): (r: string)
    requires HasMention(text, botUserId)
    ensures IsStrippedMention(text, botUserId, r)
  {
    var rest := text[|MentionToken(botUserId)|..];
    var r := SkipSpaces(rest);
    assert rest[..|rest| - |r|] == text[|MentionToken(botUserId)|..|text| - |r|];
    r
  }

  /** Skipping a run of spaces in front of a text that does not start with
      a space gives back that text. */
  lemma {:induction false} SkipSpacesAfterRun(ws: string, body: string)
    requires AllMentionSpace(ws)
    requires |body| == 0 || !IsMentionSpace(body[0])
    ensures SkipSpaces(ws + body) == body
    decreases |ws|
  {
    if |ws| > 0 {
      assert (ws + body)[1..] == ws[1..] + body;
      SkipSpacesAfterRun(ws[1..], body);
    } else {
      assert ws + body == body;
    }
  }

  /** Round trip: prefixing a body with the token and any whitespace run
      yields a mentioning text that strips back to the body. */
  lemma StripMentionRoundTrip(botUserId: string, ws: string, body: string)
    requires AllMentionSpace(ws)
    requires |body| == 0 || !IsMentionSpace(body[0])
    ensures HasMention(MentionToken(botUserId) + ws + body, botUserId)
    ensures StripMention(MentionToken(botUserId) + ws + body, botUserId) == body
  {
    var token := MentionToken(botUserId);
    var text := token + ws + body;
    assert text[..|token|] == token;
    assert text[|token|..] == ws + body;
    SkipSpacesAfterRun(ws, body);
  }
}
