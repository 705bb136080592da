/** The in-page assistant: the question is lower-cased and matched against four
    keyword groups in a fixed order; the first group that occurs picks the reply.
 */
module Assistant {

  /** The five canned answers. */
  datatype Reply = EmergencyHelp | TrialHelp | AnalyticsHelp | ProjectHelp | DefaultHelp

  function ReplyText(r: Reply): string
  {
    match r
    case EmergencyHelp =>
      "You can simulate new emergencies with the \"Simulate Emergency\" button. The left panel and metrics will update when you click it."
    case TrialHelp =>
      "Use the Patient-Trial Matching controls in the middle panel, then click \"Find Matching Trials\" to update the results."
    case AnalyticsHelp =>
      "Any of the project control buttons will refresh the analytics section by running a quick data simulation."
    case ProjectHelp =>
      "Click the controls under \"Project Controls\" to start the project, track progress, generate a report, or simulate data all at once."
    case DefaultHelp =>
      "I am a simple helper bot for this dashboard. Try asking about emergencies, trials, charts, or project controls."
  }

  /** `toLowerCase` on one character (the ASCII letters A to Z). */
  function LowerChar(c: char): char
  {
    if 'A' <= c <= 'Z' then (c as int + 32) as char else c
  }

  function ToLower(s: string): (r: string)
    ensures |r| == |s|
    ensures forall i :: 0 <= i < |s| ==> r[i] == LowerChar(s[i])
  {
    seq(|s|, i requires 0 <= i < |s| => LowerChar(s[i]))
  }

  predicate OccursAt(s: string, word: string, i: nat)
  {
    i + |word| <= |s| && s[i..i + |word|] == word
  }

  /** `s.includes(word)`. */
  predicate Includes(s: string, word: string)
  {
    exists i: nat | i <= |s| :: OccursAt(s, word, i)
  }

  predicate MentionsEmergency(lowered: string) { Includes(lowered, "emergency") || Includes(lowered, "disaster") }
  predicate MentionsTrial(lowered: string) { Includes(lowered, "trial") || Includes(lowered, "patient") }
  predicate MentionsAnalytics(lowered: string) { Includes(lowered, "chart") || Includes(lowered, "analytics") }
  predicate MentionsProject(lowered: string) { Includes(lowered, "project") || Includes(lowered, "start") }

  /** Picks the answer to a question: the first keyword group that occurs in
      the lowered text wins. Each reply is given exactly when its group occurs
      and no earlier group does, and the default reply exactly when no keyword
      occurs. */
  function SelectReply(text: string): (reply: Reply)
    ensures var l := ToLower(text);
      && (reply == EmergencyHelp <==> MentionsEmergency(l))
      && (reply == TrialHelp <==> !MentionsEmergency(l) && MentionsTrial(l))
      && (reply == AnalyticsHelp <==>
            !MentionsEmergency(l) && !MentionsTrial(l) && MentionsAnalytics(l))
      && (reply == ProjectHelp <==>
            !MentionsEmergency(l) && !MentionsTrial(l) && !MentionsAnalytics(l) && MentionsProject(l))
      && (reply == DefaultHelp <==>
            !MentionsEmergency(l) && !MentionsTrial(l) && !MentionsAnalytics(l) && !MentionsProject(l))
  {
    var lowered := ToLower(text);
    if MentionsEmergency(lowered) then EmergencyHelp
    else if MentionsTrial(lowered) then TrialHelp
    else if MentionsAnalytics(lowered) then AnalyticsHelp
    else if MentionsProject(lowered) then ProjectHelp
    else DefaultHelp
  }

  /** The reply text. It is the answer chosen for the lower-cased question, so
      the letter case of the question never matters. */
  function GetAssistantReply(text: string): (r: string)
    ensures r == ReplyText(SelectReply(ToLower(text)))
  {
    CaseInsensitive(text);
    ReplyText(SelectReply(text))
  }

  /** Lower-casing twice is lower-casing once. */
  lemma ToLowerIdempotent(s: string)
    ensures ToLower(ToLower(s)) == ToLower(s)
  {
    assert forall i :: 0 <= i < |s| ==> LowerChar(LowerChar(s[i])) == LowerChar(s[i]);
  }

  /** The reply ignores letter case. */
  lemma CaseInsensitive(text: string)
    ensures SelectReply(ToLower(text)) == SelectReply(text)
  {
    ToLowerIdempotent(text);
  }

  /** Lower-casing works character by character, so it distributes over concatenation. */
  lemma ToLowerConcat(a: string, b: string)
    ensures ToLower(a + b) == ToLower(a) + ToLower(b)
  {
  }

  /** A word written out in the text occurs in it. */
  lemma IncludesInfix(a: string, word: string, b: string)
    ensures Includes(a + word + b, word)
  {
    assert (a + word + b)[|a|..|a| + |word|] == word;
    assert OccursAt(a + word + b, word, |a|);
  }

  /** A keyword that is already lower case, written anywhere in the text,
      occurs in the lowered text. */
  lemma KeywordSurvivesLowering(a: string, keyword: string, b: string)
    requires ToLower(keyword) == keyword
    ensures Includes(ToLower(a + keyword + b), keyword)
  {
    ToLowerConcat(a + keyword, b);
    ToLowerConcat(a, keyword);
    IncludesInfix(ToLower(a), keyword, ToLower(b));
  }

  /** Mentioning "emergency" or "disaster" anywhere gives the emergency reply,
      whatever other keywords the text contains. */
  lemma EmergencyWins(a: string, keyword: string, b: string)
    requires keyword == "emergency" || keyword == "disaster"
    ensures SelectReply(a + keyword + b) == EmergencyHelp
  {
    KeywordSurvivesLowering(a, keyword, b);
  }

  /** Without an emergency keyword, mentioning "trial" or "patient" gives the
      trial reply, whatever later-ranked keywords the text contains. */
  lemma TrialWinsOverLaterGroups(a: string, keyword: string, b: string)
    requires keyword == "trial" || keyword == "patient"
    requires !MentionsEmergency(ToLower(a + keyword + b))
    ensures SelectReply(a + keyword + b) == TrialHelp
  {
    KeywordSurvivesLowering(a, keyword, b);
  }

  /** An upper-case "DISASTER" is recognised like the lower-case one. */
  lemma UpperCaseKeywordRecognised(a: string, b: string)
    ensures SelectReply(a + "DISASTER" + b) == EmergencyHelp
  {
    ToLowerConcat(a + "DISASTER", b);
    ToLowerConcat(a, "DISASTER");
    assert ToLower("DISASTER") == "disaster";
    IncludesInfix(ToLower(a), "disaster", ToLower(b));
  }
}
