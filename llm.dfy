/**
 * The deterministic half of the language-model service (`LLMService`):
 * reading milestones out of a numbered reply, the fixed fallback texts,
 * and the event lines a scene summary prompt is built from. The model's
 * reply is a parameter (`None` when the call failed); what the service
 * does with it is modelled exactly.
 */
module Llm {
  import opened Wrappers
  import opened Strings

  // ---------------------------------------------------------- splitting

  /** `s.split(sep)` for a one-character separator: the pieces between
      separators, an empty text giving one empty piece. */
  function Split(s: string, sep: char): (parts: seq<string>)
    ensures |parts| > 0
    ensures forall i :: 0 <= i < |parts| ==> sep !in parts[i]
    decreases |s|
  {
    if |s| == 0 then [""]
    else
      var rest := Split(s[1..], sep);
      if s[0] == sep then [""] + rest
      else [[s[0]] + rest[0]] + rest[1..]
  }

  /** Joining the pieces with the separator gives the text back. */
  lemma {:induction false} SplitJoin(s: string, sep: char)
    ensures Join(Split(s, sep), [sep]) == s
    decreases |s|
  {
    if |s| > 0 {
      var rest := Split(s[1..], sep);
      SplitJoin(s[1..], sep);
      if s[0] == sep {
        assert ([""] + rest)[1..] == rest;
      } else {
        var parts := [[s[0]] + rest[0]] + rest[1..];
        if |rest| == 1 {
          assert parts == [[s[0]] + rest[0]];
        } else {
          assert parts[1..] == rest[1..];
          assert Join(rest, [sep]) == rest[0] + [sep] + Join(rest[1..], [sep]);
        }
      }
    }
  }

  // --------------------------------------------------------- milestones

  /** What `line.lstrip("0123456789.-) ")` drops. */
  const NumberingChars: set<char> := {'0', '1', '2', '3', '4', '5', '6', '7', '8', '9', '.', '-', ')', ' '}

  /** Non-empty, with no whitespace at either end. */
  predicate Trimmed(s: string) { |s| > 0 && !IsSpace(s[0]) && !IsSpace(s[|s| - 1]) }

  /** One line of the reply: kept when, stripped, it starts with a digit or
      "-", and still holds text once its numbering is gone. */
  function Milestone(line: string): (r: Option<string>)
    ensures r.Some? ==> Trimmed(r.value)
    ensures r.Some? ==> var l := Strip(line); |l| > 0 && (IsDigit(l[0]) || l[0] == '-')
  {
    var l := Strip(line);
    if |l| > 0 && (IsDigit(l[0]) || l[0] == '-') then
      var cleaned := Strip(LStripChars(l, NumberingChars));
      if |cleaned| > 0 then Some(cleaned) else None
    else None
  }

  /** The milestones of the lines, in order. */
  function Milestones(lines: seq<string>): (r: seq<string>)
    ensures |r| <= |lines|
    ensures forall i :: 0 <= i < |r| ==> Trimmed(r[i])
  {
    if |lines| == 0 then []
    else
      var m := Milestone(lines[|lines| - 1]);
      Milestones(lines[..|lines| - 1]) + (if m.Some? then [m.value] else [])
  }

  /** The last line adds its milestone, if it has one. */
  lemma MilestonesStep(lines: seq<string>, i: nat, next: nat)
    requires i < |lines| && next == i + 1
    ensures Milestones(lines[..next])
      == Milestones(lines[..i]) + (if Milestone(lines[i]).Some? then [Milestone(lines[i]).value] else [])
  {
    var pre := lines[..next];
    var init := lines[..i];
    assert pre == init + [lines[i]];
    MilestonesSnoc(pre, init, lines[i]);
  }

  lemma MilestonesSnoc(pre: seq<string>, init: seq<string>, line: string)
    requires pre == init + [line]
    ensures Milestones(pre) == Milestones(init) + (if Milestone(line).Some? then [Milestone(line).value] else [])
  {
    assert pre[..|pre| - 1] == init;
  }

  /** `p` names, for each item, a line `read` takes it from. */
  predicate ReadFrom(read: string -> Option<string>, lines: seq<string>, items: seq<string>, p: seq<nat>) {
    && |p| == |items|
    && forall i :: 0 <= i < |p| ==> p[i] < |lines| && read(lines[p[i]]) == Some(items[i])
  }

  /** The lines named by `p` come in the order of the lines. */
  predicate Increasing(p: seq<nat>) {
    forall i, j :: 0 <= i < j < |p| ==> p[i] < p[j]
  }

  lemma ReadFromLonger(read: string -> Option<string>, lines: seq<string>, last: nat, items: seq<string>, p: seq<nat>)
    requires last < |lines| && ReadFrom(read, lines[..last], items, p)
    ensures ReadFrom(read, lines, items, p)
    ensures forall i :: 0 <= i < |p| ==> p[i] < last
  {
    forall i | 0 <= i < |p|
      ensures p[i] < last && read(lines[p[i]]) == Some(items[i])
    {
      assert lines[p[i]] == lines[..last][p[i]];
    }
  }

  lemma ReadFromSnoc(read: string -> Option<string>, lines: seq<string>, last: nat, items: seq<string>, p: seq<nat>, m: string)
    requires last < |lines| && ReadFrom(read, lines, items, p)
    requires read(lines[last]) == Some(m)
    ensures ReadFrom(read, lines, items + [m], p + [last])
  {
    var q := p + [last];
    var ms := items + [m];
    forall i | 0 <= i < |q|
      ensures q[i] < |lines| && read(lines[q[i]]) == Some(ms[i])
    {
      if i < |p| {
        assert q[i] == p[i] && ms[i] == items[i];
      } else {
        assert q[i] == last && ms[i] == m;
      }
    }
  }

  lemma IncreasingSnoc(p: seq<nat>, last: nat)
    requires Increasing(p) && forall i :: 0 <= i < |p| ==> p[i] < last
    ensures Increasing(p + [last])
  {
  }

  /** For each milestone, the line it was read from: distinct lines, in
      the order of the lines. */
  function Sources(lines: seq<string>): (p: seq<nat>)
    ensures ReadFrom(Milestone, lines, Milestones(lines), p)
    ensures Increasing(p)
    ensures forall i :: 0 <= i < |p| ==> p[i] < |lines|
  {
    if |lines| == 0 then []
    else
      var last := |lines| - 1;
      var init := lines[..last];
      var p := Sources(init);
      var before := Milestones(init);
      var m := Milestone(lines[last]);
      MilestonesStep(lines, last, |lines|);
      assert lines[..|lines|] == lines;
      ReadFromLonger(Milestone, lines, last, before, p);
      if m.Some? then
        ReadFromSnoc(Milestone, lines, last, before, p, m.value);
        IncreasingSnoc(p, last);
        p + [last]
      else p
  }

  /** Python's `s[:n]`: the first `n` items, or for a negative `n` all but
      the last `-n`. */
  function SliceTo<T>(s: seq<T>, n: int): (r: seq<T>)
    ensures |r| <= |s| && r == s[..|r|]
    ensures n >= 0 ==> |r| == if n < |s| then n else |s|
    ensures n < 0 ==> |r| == if |s| + n > 0 then |s| + n else 0
  {
    if n >= 0 then (if n < |s| then s[..n] else s)
    else if |s| + n > 0 then s[..|s| + n] else []
  }

  const FallbackMilestones: seq<string> := [
    "The investigators discover the first clue",
    "A dark secret is revealed",
    "Confrontation with the unknown",
    "The truth becomes clear",
    "Final resolution"
  ]

  /** Python's truth value of an optional reply. */
  predicate Answered(reply: Option<string>) { reply.Some? && |reply.value| > 0 }

  /** What `generate_campaign_milestones` returns for the model's reply. */
  function CampaignMilestones(reply: Option<string>, count: int): seq<string> {
    var parsed := if Answered(reply) then Milestones(Split(Strip(reply.value), '\n')) else [];
    if |parsed| > 0 then SliceTo(parsed, count) else SliceTo(FallbackMilestones, count)
  }

  /** At most `count` milestones, each a non-empty trimmed line of the
      reply; and when the reply yields none, the fixed list cut to
      `count`. */
  lemma MilestonesShape(reply: Option<string>, count: int)
    ensures var r := CampaignMilestones(reply, count);
      && (count >= 0 ==> |r| <= count)
      && |r| <= 5 + (if Answered(reply) then |Split(Strip(reply.value), '\n')| else 0)
      && (forall i :: 0 <= i < |r| ==> Trimmed(r[i]))
  {
    var r := CampaignMilestones(reply, count);
    var parsed := if Answered(reply) then Milestones(Split(Strip(reply.value), '\n')) else [];
    if |parsed| > 0 {
      assert forall i :: 0 <= i < |r| ==> r[i] == parsed[i];
    } else {
      assert forall i :: 0 <= i < |r| ==> r[i] == FallbackMilestones[i];
      assert forall i :: 0 <= i < |FallbackMilestones| ==> Trimmed(FallbackMilestones[i]);
    }
  }

  /** A failed call, or a reply with no numbered line, gives the first
      `count` fallback milestones. */
  lemma NoReplyFallback(reply: Option<string>, count: nat)
    requires !Answered(reply) || |Milestones(Split(Strip(reply.value), '\n'))| == 0
    ensures CampaignMilestones(reply, count) == FallbackMilestones[..if count < 5 then count else 5]
  {
  }

  /** One pass of the parsing loop: the cleaned milestone on the line, if any. */
  method ParseLine(raw: string) returns (m: Option<string>)
    ensures m == Milestone(raw)
  {
    var line := Strip(raw);
    m := None;
    if |line| > 0 && (IsDigit(line[0]) || line[0] == '-') {
      var cleaned := Strip(LStripChars(line, NumberingChars));
      if |cleaned| > 0 {
        m := Some(cleaned);
      }
    }
  }

  method ParseMilestones(response: string) returns (milestones: seq<string>)
    ensures milestones == Milestones(Split(Strip(response), '\n'))
  {
    var lines := Split(Strip(response), '\n');
    milestones := ParseLines(lines);
  }

  /** The loop over the reply's lines. */
  method ParseLines(lines: seq<string>) returns (milestones: seq<string>)
    ensures milestones == Milestones(lines)
  {
    milestones := [];
    var i := 0;
    while i < |lines|
      invariant i <= |lines| && milestones == Milestones(lines[..i])
    {
      var next := i + 1;
      MilestonesStep(lines, i, next);
      var m := ParseLine(lines[i]);
      if m.Some? {
        milestones := milestones + [m.value];
      }
      i := next;
    }
    assert lines[..|lines|] == lines;
  }

  /** `generate_campaign_milestones`, given the model's reply. */
  method GenerateCampaignMilestones(reply: Option<string>, count: int) returns (r: seq<string>)
    ensures r == CampaignMilestones(reply, count)
  {
    if Answered(reply) {
      var milestones := ParseMilestones(reply.value);
      if |milestones| > 0 {
        return SliceTo(milestones, count);
      }
    }
    r := SliceTo(FallbackMilestones, count);
  }

  // ------------------------------------------------------------ summaries

  /** A key of a stored document: missing, stored as null, or set. */
  datatype Field<T> = Absent | Null | Present(value: T)

  /** `doc.get(key, default)` as an f-string writes it: null prints as
      "None". */
  function Shown(f: Field<string>, default: string): string {
    match f
    case Absent => default
    case Null => "None"
    case Present(v) => v
  }

  /** The truth value of a text field. */
  predicate Said(f: Field<string>) { f.Present? && |f.value| > 0 }

  datatype ActionDoc = ActionDoc(characterName: Field<string>, speak: Field<string>, act: Field<string>)

  datatype ReactionDoc = ReactionDoc(description: Field<string>)

  datatype TurnDoc = TurnDoc(actions: seq<ActionDoc>, reaction: Field<ReactionDoc>)

  /** What one action says: its speech, then its deed. */
  function ActionParts(a: ActionDoc): (r: seq<string>)
    ensures |r| == (if Said(a.speak) then 1 else 0) + (if Said(a.act) then 1 else 0)
    ensures Said(a.speak) ==> r[0] == Shown(a.characterName, "Someone") + " said: \"" + a.speak.value + "\""
    ensures Said(a.act) ==> r[|r| - 1] == Shown(a.characterName, "Someone") + " " + a.act.value
  {
    var name := Shown(a.characterName, "Someone");
    (if Said(a.speak) then [name + " said: \"" + a.speak.value + "\""] else [])
    + (if Said(a.act) then [name + " " + a.act.value] else [])
  }

  function ActionsParts(actions: seq<ActionDoc>): seq<string> {
    if |actions| == 0 then []
    else ActionsParts(actions[..|actions| - 1]) + ActionParts(actions[|actions| - 1])
  }

  /** The reaction line: its first 200 characters, and "..." always. */
  function ReactionPart(description: Field<string>): (r: seq<string>)
    ensures |r| <= 1
    ensures |r| == 1 <==> Said(description)
    ensures |r| == 1 ==> 11 <= |r[0]| <= 8 + 200 + 3 && r[0][..8] == "Result: " && r[0][|r[0]| - 3..] == "..."
  {
    if Said(description) then ["Result: " + Take(description.value, 200) + "..."] else []
  }

  /** A turn's parts as `summarize_scene` was meant to collect them: a
      reaction stored as null is read as no reaction. */
  function TurnParts(t: TurnDoc): seq<string> {
    ActionsParts(t.actions)
    + (if t.reaction.Present? then ReactionPart(t.reaction.value.description) else [])
  }

  /** One description per turn that has any part, its parts joined with
      spaces. */
  function Descriptions(turns: seq<TurnDoc>): seq<string> {
    if |turns| == 0 then []
    else
      var parts := TurnParts(turns[|turns| - 1]);
      Descriptions(turns[..|turns| - 1]) + (if |parts| > 0 then [Join(parts, " ")] else [])
  }

  /** The event lines of the prompt: the first ten descriptions. */
  function EventLines(descriptions: seq<string>): (r: seq<string>)
    ensures |r| == if |descriptions| < 10 then |descriptions| else 10
    ensures forall i :: 0 <= i < |r| ==> r[i] == "- " + descriptions[i]
  {
    var n := if |descriptions| < 10 then |descriptions| else 10;
    seq(n, i requires 0 <= i < n => "- " + descriptions[i])
  }

  function ScenePrompt(sceneName: string, descriptions: seq<string>): string {
    "Summarize this scene: \"" + sceneName + "\"\n\nEvents:\n" + Join(EventLines(descriptions), "\n")
    + "\n\nWrite a brief Markdown summary (2-3 sentences):"
  }

  /** `summarize_scene` for a reply: nothing to summarise, the reply
      trimmed, or the fallback with the number of turns. */
  function SceneSummary(sceneName: string, turns: seq<TurnDoc>, reply: Option<string>): string {
    if |turns| == 0 then "*" + sceneName + "* - No events recorded."
    else if Answered(reply) then Strip(reply.value)
    else "*" + sceneName + "* - " + NatToString(|turns|) + " turns occurred."
  }

  /** The inner loop over one turn's actions. */
  method DescribeActions(actions: seq<ActionDoc>) returns (parts: seq<string>)
    ensures parts == ActionsParts(actions)
  {
    parts := [];
    for j := 0 to |actions|
      invariant parts == ActionsParts(actions[..j])
    {
      assert actions[..j + 1][..j] == actions[..j];
      var action := actions[j];
      var charName := Shown(action.characterName, "Someone");
      if Said(action.speak) {
        parts := parts + [charName + " said: \"" + action.speak.value + "\""];
      }
      if Said(action.act) {
        parts := parts + [charName + " " + action.act.value];
      }
    }
    assert actions[..|actions|] == actions;
  }

  /** The description loop of `summarize_scene`. */
  method DescribeTurns(turns: seq<TurnDoc>) returns (descriptions: seq<string>)
    ensures descriptions == Descriptions(turns)
  {
    descriptions := [];
    for i := 0 to |turns|
      invariant descriptions == Descriptions(turns[..i])
    {
      assert turns[..i + 1][..i] == turns[..i];
      var turn := turns[i];
      var parts := DescribeActions(turn.actions);
      if turn.reaction.Present? && Said(turn.reaction.value.description) {
        parts := parts + ["Result: " + Take(turn.reaction.value.description.value, 200) + "..."];
      } else {
        assert parts == parts + [];
      }
      assert parts == TurnParts(turn);
      assert turns[..i + 1][i] == turn;
      if |parts| > 0 {
        descriptions := descriptions + [Join(parts, " ")];
      }
    }
    assert turns[..|turns|] == turns;
  }

  /** `summarize_scene`: the prompt sent to the model (none when there are
      no turns, so no call is made) and the summary returned. */
  method SummarizeScene(sceneName: string, turns: seq<TurnDoc>, reply: Option<string>)
    returns (prompt: Option<string>, summary: string)
    ensures prompt.None? <==> |turns| == 0
    ensures prompt.Some? ==> prompt.value == ScenePrompt(sceneName, Descriptions(turns))
    ensures summary == SceneSummary(sceneName, turns, reply)
  {
    if |turns| == 0 {
      return None, "*" + sceneName + "* - No events recorded.";
    }
    var descriptions := DescribeTurns(turns);
    prompt := Some(ScenePrompt(sceneName, descriptions));
    if Answered(reply) {
      summary := Strip(reply.value);
    } else {
      summary := "*" + sceneName + "* - " + NatToString(|turns|) + " turns occurred.";
    }
  }

  /** With no turns the reply plays no part; otherwise a failed call
      reports how many turns there were. */
  lemma SceneFallbacks(sceneName: string, turns: seq<TurnDoc>, reply: Option<string>)
    ensures |turns| == 0 ==> SceneSummary(sceneName, turns, reply) == SceneSummary(sceneName, turns, None)
    ensures |turns| > 0 && !Answered(reply) ==>
      exists digits ::
        && SceneSummary(sceneName, turns, reply) == "*" + sceneName + "* - " + digits + " turns occurred."
        && AllDigits(digits) && DigitsValue(digits) == |turns|
  {
    if |turns| > 0 && !Answered(reply) {
      NatToStringValue(|turns|);
    }
  }

  /** As written, `turn.get("reaction", {})` returns None for a reaction
      stored as null, and reading a description from it raises. */
  function TurnPartsAsWritten(t: TurnDoc): (r: Result<seq<string>, string>)
    ensures r.Err? <==> t.reaction.Null?
  {
    match t.reaction
    case Null => Err("AttributeError: 'NoneType' object has no attribute 'get'")
    case Absent => Ok(ActionsParts(t.actions))
    case Present(reaction) => Ok(ActionsParts(t.actions) + ReactionPart(reaction.description))
  }

  function SceneSummaryAsWritten(sceneName: string, turns: seq<TurnDoc>, reply: Option<string>): Result<string, string> {
    if |turns| == 0 then Ok("*" + sceneName + "* - No events recorded.")
    else if exists i :: 0 <= i < |turns| && turns[i].reaction.Null? then
      Err("AttributeError: 'NoneType' object has no attribute 'get'")
    else Ok(SceneSummary(sceneName, turns, reply))
  }

  /** A new turn stores `reaction` as null, so a scene holding one turn
      that is not completed yet cannot be summarised as written. */
  lemma DraftTurnBreaksSummary(reply: Option<string>)
    ensures SceneSummaryAsWritten("Cellar", [TurnDoc([], Null)], reply).Err?
    ensures TurnPartsAsWritten(TurnDoc([], Null)).Err?
  {
    var turns := [TurnDoc([], Null)];
    assert turns[0].reaction.Null?;
  }

  /** Wherever the code as written does not raise, reading a null
      reaction as none changes nothing. */
  lemma SummaryAgreesWithoutNull(sceneName: string, turns: seq<TurnDoc>, reply: Option<string>, t: TurnDoc)
    requires forall i :: 0 <= i < |turns| ==> !turns[i].reaction.Null?
    requires !t.reaction.Null?
    ensures SceneSummaryAsWritten(sceneName, turns, reply) == Ok(SceneSummary(sceneName, turns, reply))
    ensures TurnPartsAsWritten(t) == Ok(TurnParts(t))
  {
    assert ActionsParts(t.actions) + [] == ActionsParts(t.actions);
  }

  // ------------------------------------------------------------ chapters

  datatype SceneDoc = SceneDoc(name: Field<string>, summary: Field<string>)

  /** A scene's prompt line; a missing name or summary reads as its
      default, a null one as "None". */
  function SceneLine(scene: SceneDoc): string {
    "**" + Shown(scene.name, "Unnamed Scene") + "**: " + Shown(scene.summary, "No summary")
  }

  /** One prompt line per scene, in order. */
  function SceneLines(scenes: seq<SceneDoc>): (r: seq<string>)
    ensures |r| == |scenes|
    ensures forall i :: 0 <= i < |r| ==>
      r[i] == "**" + Shown(scenes[i].name, "Unnamed Scene") + "**: " + Shown(scenes[i].summary, "No summary")
  {
    seq(|scenes|, i requires 0 <= i < |scenes| => SceneLine(scenes[i]))
  }

  function ChapterPrompt(chapterName: string, lines: seq<string>): string {
    "Summarize this chapter: \"" + chapterName + "\"\n\nScenes:\n" + Join(lines, "\n")
    + "\n\nWrite a Markdown summary of the chapter (3-5 sentences):"
  }

  /** `summarize_chapter` for a reply. */
  function ChapterSummary(chapterName: string, scenes: seq<SceneDoc>, reply: Option<string>): string {
    if |scenes| == 0 then "**" + chapterName + "** - No scenes recorded."
    else if Answered(reply) then Strip(reply.value)
    else "**" + chapterName + "** - " + NatToString(|scenes|) + " scenes completed."
  }

  /** `summarize_chapter`: the prompt sent to the model (none when there
      are no scenes, so no call is made) and the summary returned. */
  method SummarizeChapter(chapterName: string, scenes: seq<SceneDoc>, reply: Option<string>)
    returns (prompt: Option<string>, summary: string)
    ensures prompt.None? <==> |scenes| == 0
    ensures prompt.Some? ==> prompt.value == ChapterPrompt(chapterName, SceneLines(scenes))
    ensures summary == ChapterSummary(chapterName, scenes, reply)
  {
    if |scenes| == 0 {
      return None, "**" + chapterName + "** - No scenes recorded.";
    }
    var lines: seq<string> := [];
    for i := 0 to |scenes|
      invariant |lines| == i
      invariant forall k :: 0 <= k < i ==> lines[k] == SceneLine(scenes[k])
    {
      lines := lines + [SceneLine(scenes[i])];
    }
    assert lines == SceneLines(scenes);
    prompt := Some(ChapterPrompt(chapterName, lines));
    if Answered(reply) {
      summary := Strip(reply.value);
    } else {
      summary := "**" + chapterName + "** - " + NatToString(|scenes|) + " scenes completed.";
    }
  }

  /** With no scenes the reply plays no part; otherwise a failed call
      reports how many scenes there were. */
  lemma ChapterFallbacks(chapterName: string, scenes: seq<SceneDoc>, reply: Option<string>)
    ensures |scenes| == 0 ==> ChapterSummary(chapterName, scenes, reply) == ChapterSummary(chapterName, scenes, None)
    ensures |scenes| > 0 && !Answered(reply) ==>
      exists digits ::
        && ChapterSummary(chapterName, scenes, reply) == "**" + chapterName + "** - " + digits + " scenes completed."
        && AllDigits(digits) && DigitsValue(digits) == |scenes|
  {
    if |scenes| > 0 && !Answered(reply) {
      NatToStringValue(|scenes|);
    }
  }
}
