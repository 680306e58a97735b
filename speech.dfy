/**
 * The web client's narration hook (`useSpeechSynthesis`): choosing a
 * voice from those the browser offers, starting and stopping speech from
 * an offset into a text, and flattening a page element's text before it is
 * spoken. The browser's speech engine is not modelled: the voices it
 * reports are a parameter, whether it exists at all is the `supported`
 * flag, and its start/end/error callbacks are methods anyone may call.
 */
module Speech {
  import opened Wrappers
  import opened Strings
  import opened Sequences

  /** The two fields of a `SpeechSynthesisVoice` the hook reads. */
  datatype Voice = Voice(name: string, lang: string)

  /** The voices tried by name before any language fallback, best first. */
  const PreferredVoices: seq<string> :=
    ["Google UK English Male", "Microsoft George - English (United Kingdom)", "Daniel"]

  // ------------------------------------------------------------ search

  /** The predicates the hook hands to `Array.prototype.find`. */
  datatype Test = NameIs(name: string) | LangIs(lang: string) | LangEnglish

  predicate Passes(v: Voice, t: Test) {
    match t
    case NameIs(n) => v.name == n
    case LangIs(l) => v.lang == l
    case LangEnglish => StartsWith(v.lang, "en")
  }

  /** `available.find(test)`, as the index of the voice it returns. */
  function Find(available: seq<Voice>, t: Test): (r: Option<nat>)
    ensures r.Some? ==> r.value < |available| && Passes(available[r.value], t)
    ensures r.Some? ==> forall j :: 0 <= j < r.value ==> !Passes(available[j], t)
    ensures r.None? ==> forall j :: 0 <= j < |available| ==> !Passes(available[j], t)
  {
    if |available| == 0 then None
    else if Passes(available[0], t) then Some(0)
    else
      match Find(available[1..], t)
      case None => None
      case Some(k) => Some(k + 1)
  }

  /** The loop over the preferred names: the first name any voice has
      decides, and the first voice with that name is taken. */
  function FirstNamed(available: seq<Voice>, names: seq<string>): Option<nat> {
    if |names| == 0 then None
    else
      match Find(available, NameIs(names[0]))
      case Some(k) => Some(k)
      case None => FirstNamed(available, names[1..])
  }

  /** `findPreferredVoice`, as an index: a preferred name, else the first
      British English voice, else the first English one, else the first. */
  function PreferredIndex(available: seq<Voice>): Option<nat> {
    match FirstNamed(available, PreferredVoices)
    case Some(k) => Some(k)
    case None =>
      match Find(available, LangIs("en-GB"))
      case Some(k) => Some(k)
      case None =>
        match Find(available, LangEnglish)
        case Some(k) => Some(k)
        case None => if |available| > 0 then Some(0) else None
  }

  function PreferredVoice(available: seq<Voice>): (r: Option<Voice>)
    ensures r.Some? <==> |available| > 0
    ensures r.Some? ==> r.value in available
  {
    PreferredIndexBest(available);
    match PreferredIndex(available)
    case Some(k) => Some(available[k])
    case None => None
  }

  // ----------------------------------------- an independent reference

  /** Where `name` stands among `names`, or `|names|` when it is not there. */
  function NameRank(names: seq<string>, name: string): (r: nat)
    ensures r <= |names|
    ensures r < |names| ==> names[r] == name
    ensures forall i :: 0 <= i < r ==> names[i] != name
  {
    if |names| == 0 then 0
    else if names[0] == name then 0
    else 1 + NameRank(names[1..], name)
  }

  function LangRank(lang: string): nat {
    if lang == "en-GB" then 0 else if StartsWith(lang, "en") then 1 else 2
  }

  /** How good a voice is: a preferred name by its place in the list, then
      British English, then any English, then anything. Lower is better. */
  function Rank(v: Voice): nat {
    var n := NameRank(PreferredVoices, v.name);
    if n < |PreferredVoices| then n else |PreferredVoices| + LangRank(v.lang)
  }

  /** `available[k]` is the earliest of the voices of lowest rank. */
  predicate Best(available: seq<Voice>, k: nat) {
    && k < |available|
    && (forall j :: 0 <= j < |available| ==> Rank(available[k]) <= Rank(available[j]))
    && (forall j :: 0 <= j < k ==> Rank(available[k]) < Rank(available[j]))
  }

  /** The search by name picks the earliest voice of lowest name rank, and
      finds nothing only when no voice has a listed name. */
  lemma {:induction false} FirstNamedBest(available: seq<Voice>, names: seq<string>)
    ensures FirstNamed(available, names).None? ==>
      forall j :: 0 <= j < |available| ==> NameRank(names, available[j].name) == |names|
    ensures FirstNamed(available, names).Some? ==>
      var k := FirstNamed(available, names).value;
      && k < |available|
      && NameRank(names, available[k].name) < |names|
      && (forall j :: 0 <= j < |available| ==>
            NameRank(names, available[k].name) <= NameRank(names, available[j].name))
      && (forall j :: 0 <= j < k ==>
            NameRank(names, available[k].name) < NameRank(names, available[j].name))
  {
    if |names| > 0 {
      match Find(available, NameIs(names[0]))
      case Some(k) =>
        assert NameRank(names, available[k].name) == 0;
      case None =>
        FirstNamedBest(available, names[1..]);
        forall j | 0 <= j < |available|
          ensures NameRank(names, available[j].name) == 1 + NameRank(names[1..], available[j].name)
        {
          assert !Passes(available[j], NameIs(names[0]));
        }
    }
  }

  /** Whatever was found by name outranks every voice without such a name. */
  lemma NamedIsBest(available: seq<Voice>, k: nat)
    requires FirstNamed(available, PreferredVoices) == Some(k)
    ensures Best(available, k)
  {
    FirstNamedBest(available, PreferredVoices);
  }

  /** With no preferred name present, the rank is decided by language. */
  lemma LangIsBest(available: seq<Voice>)
    requires FirstNamed(available, PreferredVoices).None?
    ensures PreferredIndex(available).Some? ==> Best(available, PreferredIndex(available).value)
  {
    FirstNamedBest(available, PreferredVoices);
    assert forall j :: 0 <= j < |available| ==>
      Rank(available[j]) == |PreferredVoices| + LangRank(available[j].lang);
    match Find(available, LangIs("en-GB"))
    case Some(k) =>
    case None =>
      match Find(available, LangEnglish)
      case Some(k) =>
        assert forall j :: 0 <= j < |available| ==> available[j].lang != "en-GB";
      case None =>
        assert forall j :: 0 <= j < |available| ==> LangRank(available[j].lang) == 2;
  }

  /** `findPreferredVoice` returns the earliest voice of lowest rank, and
      null only when the browser offers no voice at all. */
  lemma PreferredIndexBest(available: seq<Voice>)
    ensures PreferredIndex(available).None? <==> |available| == 0
    ensures PreferredIndex(available).Some? ==> Best(available, PreferredIndex(available).value)
  {
    match FirstNamed(available, PreferredVoices)
    case Some(k) =>
      NamedIsBest(available, k);
    case None =>
      LangIsBest(available);
  }

  /** The `for … of preferredVoices` loop and the fallbacks after it. */
  method FindPreferredVoice(available: seq<Voice>) returns (voice: Option<Voice>)
    ensures voice == PreferredVoice(available)
  {
    for i := 0 to |PreferredVoices|
      invariant FirstNamed(available, PreferredVoices) == FirstNamed(available, PreferredVoices[i..])
    {
      var found := Find(available, NameIs(PreferredVoices[i]));
      assert PreferredVoices[i..][1..] == PreferredVoices[i + 1..];
      if found.Some? {
        return Some(available[found.value]);
      }
    }
    var uk := Find(available, LangIs("en-GB"));
    if uk.Some? {
      return Some(available[uk.value]);
    }
    var en := Find(available, LangEnglish);
    if en.Some? {
      return Some(available[en.value]);
    }
    if |available| > 0 {
      return Some(available[0]);
    }
    return None;
  }

  // -------------------------------------------------------- narration

  /** What a `SpeechSynthesisUtterance` carries that the model follows. */
  datatype Utterance = Utterance(text: string, voice: Option<Voice>)

  /** The hook's refs and the settings store's `voiceName` ("" for none). */
  datatype Narration = Narration(
    voices: seq<Voice>,
    voiceName: string,
    isSpeaking: bool,
    current: Option<Utterance>)

  /** The computed `selectedVoice`: the first loaded voice with the chosen
      name, or none when no name is chosen or no voice has it. */
  function SelectedVoice(voices: seq<Voice>, voiceName: string): (r: Option<Voice>)
    ensures r.Some? ==> r.value in voices && r.value.name == voiceName && voiceName != ""
    ensures r.None? ==> voiceName == "" || forall j :: 0 <= j < |voices| ==> voices[j].name != voiceName
  {
    if voiceName == "" then None
    else
      match Find(voices, NameIs(voiceName))
      case Some(k) => Some(voices[k])
      case None => None
  }

  /** The computed `englishVoices`, for the voice picker. */
  function EnglishVoices(voices: seq<Voice>): (r: seq<Voice>)
    ensures forall i :: 0 <= i < |r| ==> r[i] in voices && StartsWith(r[i].lang, "en")
    ensures forall j :: 0 <= j < |voices| && StartsWith(voices[j].lang, "en") ==> voices[j] in r
    ensures |r| <= |voices|
  {
    if |voices| == 0 then []
    else
      var rest := EnglishVoices(voices[1..]);
      assert forall j :: 1 <= j < |voices| ==> voices[j] == voices[1..][j - 1];
      if StartsWith(voices[0].lang, "en") then [voices[0]] + rest else rest
  }

  /** A single voice is kept exactly when its language starts with "en". */
  lemma EnglishVoicesOne(v: Voice)
    ensures EnglishVoices([v]) == if StartsWith(v.lang, "en") then [v] else []
  {
    assert [v][1..] == [];
  }

  /** The filter distributes over concatenation, so it keeps the English
      voices in their order, each as often as it is listed. */
  lemma {:induction false} EnglishVoicesAppend(a: seq<Voice>, b: seq<Voice>)
    ensures EnglishVoices(a + b) == EnglishVoices(a) + EnglishVoices(b)
    decreases |a|
  {
    if |a| == 0 {
      assert a + b == b;
    } else {
      assert (a + b)[0] == a[0];
      assert (a + b)[1..] == a[1..] + b;
      EnglishVoicesAppend(a[1..], b);
      if StartsWith(a[0].lang, "en") {
        assert [a[0]] + (EnglishVoices(a[1..]) + EnglishVoices(b))
          == ([a[0]] + EnglishVoices(a[1..])) + EnglishVoices(b);
      }
    }
  }

  /** `loadVoices` after the browser reports `available`: an empty report
      changes nothing; otherwise the voices are replaced and, when no voice
      name is chosen yet, the preferred voice's name is chosen. */
  function Loaded(s: Narration, supported: bool, available: seq<Voice>): Narration {
    if !supported || |available| == 0 then s
    else if s.voiceName == "" then
      match PreferredVoice(available)
      case Some(v) => s.(voices := available, voiceName := v.name)
      case None => s.(voices := available)
    else s.(voices := available)
  }

  /** `stop`: nothing is speaking or queued afterwards. */
  function Stopped(s: Narration, supported: bool): Narration {
    if supported then s.(isSpeaking := false, current := None) else s
  }

  /** `startOffset > 0 ? text.slice(startOffset) : text`. */
  function Remainder(text: string, startOffset: int): (r: string)
    ensures |r| <= |text| && r == text[|text| - |r|..]
    ensures startOffset <= 0 ==> r == text
    ensures startOffset > 0 ==> |r| == if startOffset < |text| then |text| - startOffset else 0
  {
    if startOffset <= 0 then text
    else if startOffset < |text| then text[startOffset..]
    else ""
  }

  /** `speak`: stop, then queue an utterance of the remainder in the
      selected voice unless the remainder is blank. Speaking only starts
      when the engine says so (`OnStart`). */
  function Spoken(s: Narration, supported: bool, text: string, startOffset: int): Narration {
    if !supported then s
    else
      var t := Stopped(s, supported);
      var rest := Remainder(text, startOffset);
      if |Strip(rest)| == 0 then t
      else t.(current := Some(Utterance(rest, SelectedVoice(t.voices, t.voiceName))))
  }

  /** `toggle`. */
  function Toggled(s: Narration, supported: bool, text: string, startOffset: int): Narration {
    if s.isSpeaking then Stopped(s, supported) else Spoken(s, supported, text, startOffset)
  }

  /** A fresh hook: no voices loaded, nothing speaking. */
  function Fresh(voiceName: string): Narration {
    Narration([], voiceName, false, None)
  }

  // -------------------------------------------- what the state promises

  /** Loading voices keeps a chosen name and otherwise chooses the
      preferred voice; an empty report is ignored. */
  lemma LoadedChoice(s: Narration, supported: bool, available: seq<Voice>)
    ensures var t := Loaded(s, supported, available);
      && (supported && |available| > 0 ==> t.voices == available)
      && (!supported || |available| == 0 ==> t == s)
      && (s.voiceName != "" ==> t.voiceName == s.voiceName)
      && (supported && |available| > 0 && s.voiceName == "" ==>
            t.voiceName == PreferredVoice(available).value.name)
      && t.isSpeaking == s.isSpeaking && t.current == s.current
  {
  }

  /** Loading the same report twice is the same as loading it once. */
  lemma LoadedTwice(s: Narration, supported: bool, available: seq<Voice>)
    ensures Loaded(Loaded(s, supported, available), supported, available) == Loaded(s, supported, available)
  {
  }

  /** After `speak` nothing is speaking yet; an utterance is queued exactly
      when the remainder is not blank, and it carries the remainder, which
      is the end of the text from the offset on. */
  lemma SpokenQueues(s: Narration, text: string, startOffset: int)
    ensures var t := Spoken(s, true, text, startOffset);
      && !t.isSpeaking
      && (t.current.Some? <==> !AllSpace(Remainder(text, startOffset)))
      && (t.current.Some? ==> t.current.value.text == Remainder(text, startOffset))
      && (t.current.Some? ==> t.current.value.voice == SelectedVoice(s.voices, s.voiceName))
      && t.voices == s.voices && t.voiceName == s.voiceName
  {
    StripEmptyIff(Remainder(text, startOffset));
  }

  /** A positive offset inside the text skips exactly that many characters. */
  lemma RemainderSkips(text: string, startOffset: int)
    requires 0 < startOffset <= |text|
    ensures text == text[..startOffset] + Remainder(text, startOffset)
  {
  }

  /** `toggle` while speaking stops; otherwise it speaks. */
  lemma ToggledFlips(s: Narration, text: string, startOffset: int)
    ensures s.isSpeaking ==> Toggled(s, true, text, startOffset) == Stopped(s, true)
    ensures !Toggled(s, true, text, startOffset).isSpeaking
  {
  }

  /** Stopping twice is stopping once. */
  lemma StoppedTwice(s: Narration, supported: bool)
    ensures Stopped(Stopped(s, supported), supported) == Stopped(s, supported)
    ensures supported ==> !Stopped(s, supported).isSpeaking && Stopped(s, supported).current.None?
  {
  }

  // ------------------------------------------------------ page text

  /** `.replace(/\s+/g, ' ')`: every run of whitespace becomes one space. */
  function CollapseSpace(s: string): (r: string)
    ensures |r| <= |s|
    ensures |r| == 0 <==> |s| == 0
    ensures |s| > 0 ==> (r[0] == ' ' <==> IsSpace(s[0]))
    ensures forall i :: 0 <= i < |r| && IsSpace(r[i]) ==> r[i] == ' '
    ensures forall i :: 0 <= i < |r| - 1 ==> !(r[i] == ' ' && r[i + 1] == ' ')
    decreases |s|
  {
    if |s| == 0 then ""
    else if IsSpace(s[0]) then " " + CollapseSpace(LStripChars(s[1..], Whitespace))
    else [s[0]] + CollapseSpace(s[1..])
  }

  /** `getTextContent`: the element's text with whitespace runs collapsed
      and the ends trimmed; an element without text gives "". */
  function TextContent(content: Option<string>): string {
    match content
    case None => ""
    case Some(text) => Strip(CollapseSpace(text))
  }

  /** The text between the whitespace: what flattening must not change. */
  function NonSpace(s: string): (r: string)
    ensures forall i :: 0 <= i < |r| ==> !IsSpace(r[i])
  {
    if |s| == 0 then ""
    else (if IsSpace(s[0]) then "" else [s[0]]) + NonSpace(s[1..])
  }

  /** Flattened text: single spaces only, never two together, none at
      either end. */
  predicate Flat(s: string) {
    && (forall i :: 0 <= i < |s| && IsSpace(s[i]) ==> s[i] == ' ')
    && (forall i :: 0 <= i < |s| - 1 ==> !(s[i] == ' ' && s[i + 1] == ' '))
    && (|s| == 0 || (s[0] != ' ' && s[|s| - 1] != ' '))
  }

  lemma {:induction false} NonSpaceAppend(a: string, b: string)
    ensures NonSpace(a + b) == NonSpace(a) + NonSpace(b)
    decreases |a|
  {
    if |a| > 0 {
      assert (a + b)[1..] == a[1..] + b;
      NonSpaceAppend(a[1..], b);
    } else {
      assert a + b == b;
    }
  }

  lemma {:induction false} NonSpaceOfSpace(s: string)
    requires AllSpace(s)
    ensures NonSpace(s) == ""
    decreases |s|
  {
    if |s| > 0 {
      NonSpaceOfSpace(s[1..]);
    }
  }

  /** Collapsing keeps every non-whitespace character, in order. */
  lemma {:induction false} CollapseKeepsText(s: string)
    ensures NonSpace(CollapseSpace(s)) == NonSpace(s)
    decreases |s|
  {
    if |s| > 0 {
      if IsSpace(s[0]) {
        var t := s[1..];
        var rest := LStripChars(t, Whitespace);
        var skipped := t[..|t| - |rest|];
        assert t == skipped + rest;
        assert AllSpace(skipped);
        NonSpaceOfSpace(skipped);
        NonSpaceAppend(skipped, rest);
        CollapseKeepsText(rest);
        NonSpaceAppend(" ", CollapseSpace(rest));
      } else {
        CollapseKeepsText(s[1..]);
        NonSpaceAppend([s[0]], CollapseSpace(s[1..]));
      }
    }
  }

  /** Stripping the front cuts off a whitespace-only head. */
  lemma LStripCut(s: string) returns (head: string)
    ensures s == head + LStripChars(s, Whitespace) && AllSpace(head)
  {
    var l := LStripChars(s, Whitespace);
    head := s[..|s| - |l|];
    forall i | 0 <= i < |head|
      ensures IsSpace(head[i])
    {
      assert head[i] == s[i];
    }
  }

  /** Stripping the back cuts off a whitespace-only tail. */
  lemma RStripCut(s: string) returns (tail: string)
    ensures s == RStripChars(s, Whitespace) + tail && AllSpace(tail)
  {
    var r := RStripChars(s, Whitespace);
    tail := s[|r|..];
    forall i | 0 <= i < |tail|
      ensures IsSpace(tail[i])
    {
      assert tail[i] == s[|r| + i];
    }
  }

  /** Stripping only removes whitespace. */
  lemma StripKeepsText(s: string)
    ensures NonSpace(Strip(s)) == NonSpace(s)
  {
    var head := LStripCut(s);
    var l := LStripChars(s, Whitespace);
    NonSpaceAppend(head, l);
    NonSpaceOfSpace(head);
    var tail := RStripCut(l);
    var r := RStripChars(l, Whitespace);
    NonSpaceAppend(r, tail);
    NonSpaceOfSpace(tail);
  }

  /** `Strip(s)` is a piece of `s`. */
  lemma StripSlice(s: string) returns (k: nat)
    ensures k + |Strip(s)| <= |s|
    ensures forall i :: 0 <= i < |Strip(s)| ==> Strip(s)[i] == s[k + i]
  {
    var l := LStripChars(s, Whitespace);
    var r := RStripChars(l, Whitespace);
    k := |s| - |l|;
    assert Strip(s) == r;
    assert r == s[k..][..|r|] by {
      assert l == s[k..];
    }
  }

  /** A piece of collapsed text with no space at either end is flat. */
  lemma PieceFlat(c: string, r: string, k: nat)
    requires forall i :: 0 <= i < |c| && IsSpace(c[i]) ==> c[i] == ' '
    requires forall i :: 0 <= i < |c| - 1 ==> !(c[i] == ' ' && c[i + 1] == ' ')
    requires k + |r| <= |c| && forall i :: 0 <= i < |r| ==> r[i] == c[k + i]
    requires |r| == 0 || (!IsSpace(r[0]) && !IsSpace(r[|r| - 1]))
    ensures Flat(r)
  {
    forall i | 0 <= i < |r| - 1
      ensures !(r[i] == ' ' && r[i + 1] == ' ')
    {
      var j := k + i;
      assert r[i] == c[j] && r[i + 1] == c[j + 1];
    }
  }

  /** `getTextContent` gives flat text. */
  lemma TextContentFlat(content: Option<string>)
    ensures Flat(TextContent(content))
  {
    if content.Some? {
      var c := CollapseSpace(content.value);
      var k := StripSlice(c);
      PieceFlat(c, Strip(c), k);
    }
  }

  /** `getTextContent` keeps the words, in order. */
  lemma TextContentKeepsText(text: string)
    ensures NonSpace(TextContent(Some(text))) == NonSpace(text)
  {
    CollapseKeepsText(text);
    StripKeepsText(CollapseSpace(text));
  }

  /** Collapsing text that is already flat changes nothing. */
  lemma {:induction false} CollapseFlat(s: string)
    requires forall i :: 0 <= i < |s| && IsSpace(s[i]) ==> s[i] == ' '
    requires forall i :: 0 <= i < |s| - 1 ==> !(s[i] == ' ' && s[i + 1] == ' ')
    requires |s| == 0 || s[|s| - 1] != ' '
    ensures CollapseSpace(s) == s
    decreases |s|
  {
    if |s| > 0 {
      var t := s[1..];
      CollapseFlat(t);
      if IsSpace(s[0]) {
        assert |t| > 0 && !IsSpace(t[0]);
        assert LStripChars(t, Whitespace) == t;
      }
    }
  }

  /** Stripping the front of whitespace followed by text that does not
      start with whitespace leaves that text. */
  lemma {:induction false} LStripSpaceRun(w: string, b: string)
    requires AllSpace(w) && (|b| == 0 || !IsSpace(b[0]))
    ensures LStripChars(w + b, Whitespace) == b
    decreases |w|
  {
    if |w| > 0 {
      assert (w + b)[1..] == w[1..] + b;
      LStripSpaceRun(w[1..], b);
    } else {
      assert w + b == b;
    }
  }

  /** Stripping the front of text with a non-space character at `k` never
      reaches past it. */
  lemma {:induction false} LStripAppend(x: string, y: string, k: nat)
    requires k < |x| && !IsSpace(x[k])
    ensures LStripChars(x + y, Whitespace) == LStripChars(x, Whitespace) + y
    decreases k
  {
    if IsSpace(x[0]) {
      assert (x + y)[1..] == x[1..] + y;
      LStripAppend(x[1..], y, k - 1);
    }
  }

  /** Text ending in a non-space character keeps that ending when its
      front is stripped. */
  lemma {:induction false} LStripKeepsLast(t: string)
    requires |t| > 0 && !IsSpace(t[|t| - 1])
    ensures |LStripChars(t, Whitespace)| > 0
    ensures LStripChars(t, Whitespace)[|LStripChars(t, Whitespace)| - 1] == t[|t| - 1]
    decreases |t|
  {
    if IsSpace(t[0]) {
      var t1 := t[1..];
      assert t1[|t1| - 1] == t[|t| - 1];
      LStripKeepsLast(t1);
    }
  }

  /** A whitespace run before text that does not start with whitespace
      collapses to one space. */
  lemma GlueStart(w: string, b: string)
    requires |w| > 0 && AllSpace(w)
    requires |b| == 0 || !IsSpace(b[0])
    ensures CollapseSpace(w + b) == " " + CollapseSpace(b)
  {
    assert (w + b)[0] == w[0];
    assert (w + b)[1..] == w[1..] + b;
    LStripSpaceRun(w[1..], b);
  }

  /** Text that starts with whitespace and ends with a word keeps its
      leading run when more text follows. */
  lemma SpaceHeadAppend(a: string, rest: string)
    requires |a| > 1 && IsSpace(a[0]) && !IsSpace(a[|a| - 1])
    ensures CollapseSpace(a + rest) == " " + CollapseSpace(LStripChars(a[1..], Whitespace) + rest)
  {
    var t := a[1..];
    assert (a + rest)[0] == a[0];
    assert (a + rest)[1..] == t + rest;
    assert t[|t| - 1] == a[|a| - 1];
    LStripAppend(t, rest, |t| - 1);
  }

  /** The step of `CollapseGlue` for text starting with whitespace. */
  lemma GlueSpaceStep(a: string, rest: string, tail: string)
    requires |a| > 1 && IsSpace(a[0]) && !IsSpace(a[|a| - 1])
    requires var a' := LStripChars(a[1..], Whitespace);
      CollapseSpace(a' + rest) == CollapseSpace(a') + tail
    ensures CollapseSpace(a + rest) == CollapseSpace(a) + tail
  {
    var a' := LStripChars(a[1..], Whitespace);
    SpaceHeadAppend(a, rest);
    assert CollapseSpace(a) == " " + CollapseSpace(a');
    HeadChain(CollapseSpace(a + rest), CollapseSpace(a' + rest), CollapseSpace(a'), CollapseSpace(a), " ", tail);
  }

  /** The step of `CollapseGlue` for text starting with a non-space
      character. */
  lemma GlueWordStep(a: string, rest: string, tail: string)
    requires |a| > 0 && !IsSpace(a[0])
    requires CollapseSpace(a[1..] + rest) == CollapseSpace(a[1..]) + tail
    ensures CollapseSpace(a + rest) == CollapseSpace(a) + tail
  {
    assert CollapseSpace(a + rest) == [a[0]] + CollapseSpace(a[1..] + rest) by {
      assert (a + rest)[0] == a[0];
      assert (a + rest)[1..] == a[1..] + rest;
    }
    HeadChain(CollapseSpace(a + rest), CollapseSpace(a[1..] + rest), CollapseSpace(a[1..]), CollapseSpace(a), [a[0]], tail);
  }

  /** A whitespace run between two words becomes exactly one space: text
      `a`, then a run `w` of whitespace, then `b`, with `a` not ending and
      `b` not starting in whitespace, collapses to the collapse of `a`, one
      space and the collapse of `b`. */
  lemma {:induction false} CollapseGlue(a: string, w: string, b: string)
    requires |w| > 0 && AllSpace(w)
    requires |a| == 0 || !IsSpace(a[|a| - 1])
    requires |b| == 0 || !IsSpace(b[0])
    ensures CollapseSpace(a + (w + b)) == CollapseSpace(a) + (" " + CollapseSpace(b))
    decreases |a|
  {
    if |a| == 0 {
      GlueStart(w, b);
      assert a + (w + b) == w + b;
    } else if IsSpace(a[0]) {
      var t := a[1..];
      var a' := LStripChars(t, Whitespace);
      assert |a'| > 0 && !IsSpace(a'[|a'| - 1]) by {
        assert t[|t| - 1] == a[|a| - 1];
        LStripKeepsLast(t);
      }
      CollapseGlue(a', w, b);
      GlueSpaceStep(a, w + b, " " + CollapseSpace(b));
    } else {
      CollapseGlue(a[1..], w, b);
      GlueWordStep(a, w + b, " " + CollapseSpace(b));
    }
  }

  /** Two words with any whitespace between them collapse to the words
      with one space. */
  lemma WordsKeepTheirSpace(x: string, y: string, w: string)
    requires |w| > 0 && AllSpace(w)
    requires Flat(x) && Flat(y) && |x| > 0 && |y| > 0
    ensures CollapseSpace(x + (w + y)) == x + (" " + y)
  {
    CollapseGlue(x, w, y);
    CollapseFlat(x);
    CollapseFlat(y);
  }

  /** Flattening is idempotent: flat text is its own text content. */
  lemma TextContentIdempotent(content: Option<string>)
    ensures TextContent(Some(TextContent(content))) == TextContent(content)
  {
    var r := TextContent(content);
    TextContentFlat(content);
    CollapseFlat(r);
    if |r| > 0 {
      StripUnchanged(r);
    }
  }

  /** The hook's state, with the methods `useSpeechSynthesis` returns and
      the callbacks the engine invokes. */
  class Narrator {
    /** Whether `window.speechSynthesis` exists. */
    const supported: bool
    var voices: seq<Voice>
    var voiceName: string
    var isSpeaking: bool
    var current: Option<Utterance>

    function State(): Narration
      reads this
    {
      Narration(voices, voiceName, isSpeaking, current)
    }

    constructor (supported: bool, voiceName: string)
      ensures this.supported == supported && State() == Fresh(voiceName)
    {
      this.supported := supported;
      voices := [];
      this.voiceName := voiceName;
      isSpeaking := false;
      current := None;
    }

    method LoadVoices(available: seq<Voice>)
      modifies this
      ensures State() == Loaded(old(State()), supported, available)
    {
      if !supported {
        return;
      }
      if |available| > 0 {
        voices := available;
        if voiceName == "" {
          var preferred := FindPreferredVoice(available);
          if preferred.Some? {
            voiceName := preferred.value.name;
          }
        }
      }
    }

    method Stop()
      modifies this
      ensures State() == Stopped(old(State()), supported)
    {
      if !supported {
        return;
      }
      isSpeaking := false;
      current := None;
    }

    method Speak(text: string, startOffset: int)
      modifies this
      ensures State() == Spoken(old(State()), supported, text, startOffset)
    {
      if !supported {
        return;
      }
      Stop();
      var textToSpeak := if startOffset > 0 then Remainder(text, startOffset) else text;
      if |Strip(textToSpeak)| == 0 {
        return;
      }
      current := Some(Utterance(textToSpeak, SelectedVoice(voices, voiceName)));
    }

    method Toggle(text: string, startOffset: int)
      modifies this
      ensures State() == Toggled(old(State()), supported, text, startOffset)
    {
      if isSpeaking {
        Stop();
      } else {
        Speak(text, startOffset);
      }
    }

    /** The utterance's `onstart`. */
    method OnStart()
      modifies this
      ensures State() == old(State()).(isSpeaking := true)
    {
      isSpeaking := true;
    }

    /** The utterance's `onend` and `onerror`, which do the same. */
    method OnEnd()
      modifies this
      ensures State() == old(State()).(isSpeaking := false, current := None)
    {
      isSpeaking := false;
      current := None;
    }
  }
}
