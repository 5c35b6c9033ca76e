/**
 * The personality prompt compiler (`PERSONALITY_CONFIG`, scripts/scripts.js:29-52):
 * a personality setting is turned into the system prompt sent ahead of the
 * conversation.
 */
module Personality {

  import opened Options
  import opened Text

  /**
   * A saved personality. Each field may be absent, as in the JavaScript objects
   * `{preset}`, `{custom, creativity}` and `{humor, empathy, formality}`.
   * `creativity` is stored but never read by the compiler.
   */
  datatype Settings = Settings(
    preset: Option<string>,
    custom: Option<string>,
    creativity: Option<string>,
    humor: Option<bool>,
    empathy: Option<bool>,
    formality: Option<string>)

  const NoSettings := Settings(None, None, None, None, None, None)

  /** The sentence every compiled prompt opens with. */
  const IdentitySentence := "You are Great AI, developed by Evolutional Tech."

  /** The built-in presets, by identifier. */
  const Presets: map<string, string> := map[
    "professional" := "You are professional and formal. Provide detailed, business-appropriate responses.",
    "friendly" := "You are warm and conversational. Be empathetic and approachable.",
    "sarcastic" := "You are witty and sarcastic. Respond with dry humor and clever remarks.",
    "concise" := "You are brief and to-the-point. Answer in the shortest possible way."
  ]

  const NoHumorSentence := "Do not use humor."
  const NoEmpathySentence := "Be straightforward without empathy."

  function ToneSentence(formality: string): string
  {
    "Your tone should be " + formality + "."
  }

  /** JavaScript truthiness of an optional string: present and not empty. */
  predicate Truthy(s: Option<string>)
  {
    s.Some? && s.value != ""
  }

  /** A non-empty preset identifier that has a definition among the presets. */
  predicate PresetKnown(preset: Option<string>)
  {
    Truthy(preset) && preset.value in Presets
  }

  /**
   * `generatePrompt`: starting from the identity sentence, each clause that applies
   * is appended followed by one space, in the order preset, custom text, humor,
   * empathy, formality; the result is trimmed.
   */
  function GeneratePrompt(settings: Settings): string
  {
    Trim(Untrimmed(settings))
  }

  /** The prompt just before trimming: one piece per clause the compiler appends. */
  function Untrimmed(settings: Settings): string
  {
    IdentitySentence + " "
    + PresetPiece(settings.preset)
    + CustomPiece(settings.custom)
    + HumorPiece(settings.humor)
    + EmpathyPiece(settings.empathy)
    + TonePiece(settings.formality)
  }

  function PresetPiece(preset: Option<string>): string
  {
    if PresetKnown(preset) then Presets[preset.value] + " " else ""
  }

  function CustomPiece(custom: Option<string>): string
  {
    if Truthy(custom) then custom.value + " " else ""
  }

  function HumorPiece(humor: Option<bool>): string
  {
    if humor == Some(false) then NoHumorSentence + " " else ""
  }

  function EmpathyPiece(empathy: Option<bool>): string
  {
    if empathy == Some(false) then NoEmpathySentence + " " else ""
  }

  function TonePiece(formality: Option<string>): string
  {
    if Truthy(formality) then ToneSentence(formality.value) + " " else ""
  }

  /**
   * `generatePrompt` as the source runs it: the prompt is grown one clause at a
   * time and trimmed at the end; the result is the compiled prompt.
   */
  method CompilePrompt(settings: Settings) returns (prompt: string)
    ensures prompt == GeneratePrompt(settings)
  {
    var base := IdentitySentence + " ";
    if PresetKnown(settings.preset) {
      AppendSpaced(base, Presets[settings.preset.value]);
      base := base + Presets[settings.preset.value] + " ";
    }
    ghost var grown := IdentitySentence + " " + PresetPiece(settings.preset);
    assert base == grown;
    if Truthy(settings.custom) {
      AppendSpaced(base, settings.custom.value);
      base := base + settings.custom.value + " ";
    }
    grown := grown + CustomPiece(settings.custom);
    assert base == grown;
    if settings.humor == Some(false) {
      AppendSpaced(base, NoHumorSentence);
      base := base + NoHumorSentence + " ";
    }
    grown := grown + HumorPiece(settings.humor);
    assert base == grown;
    if settings.empathy == Some(false) {
      AppendSpaced(base, NoEmpathySentence);
      base := base + NoEmpathySentence + " ";
    }
    grown := grown + EmpathyPiece(settings.empathy);
    assert base == grown;
    if Truthy(settings.formality) {
      AppendSpaced(base, ToneSentence(settings.formality.value));
      base := base + ToneSentence(settings.formality.value) + " ";
    }
    grown := grown + TonePiece(settings.formality);
    assert base == Untrimmed(settings);
    prompt := Trim(base);
  }

  // A second description of the prompt, clause by clause, against which the
  // compiler is checked.

  datatype Clause =
    | Identity
    | PresetText(text: string)
    | CustomText(text: string)
    | NoHumor
    | NoEmpathy
    | Tone(formality: string)

  /** The position of each kind of clause in the prompt. */
  function Rank(c: Clause): nat
  {
    match c
    case Identity => 0
    case PresetText(_) => 1
    case CustomText(_) => 2
    case NoHumor => 3
    case NoEmpathy => 4
    case Tone(_) => 5
  }

  function Render(c: Clause): string
  {
    match c
    case Identity => IdentitySentence
    case PresetText(t) => t
    case CustomText(t) => t
    case NoHumor => NoHumorSentence
    case NoEmpathy => NoEmpathySentence
    case Tone(f) => ToneSentence(f)
  }

  /** The clauses the settings call for, in prompt order. */
  function Clauses(settings: Settings): seq<Clause>
  {
    [Identity]
    + (if PresetKnown(settings.preset) then [PresetText(Presets[settings.preset.value])] else [])
    + (if Truthy(settings.custom) then [CustomText(settings.custom.value)] else [])
    + (if settings.humor == Some(false) then [NoHumor] else [])
    + (if settings.empathy == Some(false) then [NoEmpathy] else [])
    + (if Truthy(settings.formality) then [Tone(settings.formality.value)] else [])
  }

  /** The texts of the clauses, in order. */
  function Texts(cs: seq<Clause>): (ts: seq<string>)
    ensures |ts| == |cs| && forall i | 0 <= i < |cs| :: ts[i] == Render(cs[i])
  {
    seq(|cs|, i requires 0 <= i < |cs| => Render(cs[i]))
  }

  /** Each text followed by one space, all run together. */
  function Spaced(ts: seq<string>): string
  {
    if ts == [] then "" else ts[0] + " " + Spaced(ts[1..])
  }

  lemma {:induction false} SpacedAppend(a: seq<string>, b: seq<string>)
    ensures Spaced(a + b) == Spaced(a) + Spaced(b)
  {
    if a == [] {
      assert a + b == b;
    } else {
      assert (a + b)[0] == a[0] && (a + b)[1..] == a[1..] + b;
      SpacedAppend(a[1..], b);
    }
  }

  /** A list of at most one text. */
  lemma SpacedOptional(ts: seq<string>)
    requires |ts| <= 1
    ensures Spaced(ts) == if ts == [] then "" else ts[0] + " "
  {
    if ts != [] {
      assert ts[1..] == [];
    }
  }

  lemma SpacedSix(a: seq<string>, b: seq<string>, c: seq<string>, d: seq<string>, e: seq<string>, f: seq<string>)
    ensures Spaced(a + b + c + d + e + f)
      == Spaced(a) + Spaced(b) + Spaced(c) + Spaced(d) + Spaced(e) + Spaced(f)
  {
    SpacedAppend(a + b + c + d + e, f);
    SpacedAppend(a + b + c + d, e);
    SpacedAppend(a + b + c, d);
    SpacedAppend(a + b, c);
    SpacedAppend(a, b);
  }

  lemma SplitAt<T>(s: seq<T>, i: nat)
    requires i < |s|
    ensures s == (s[..i] + [s[i]]) + s[i + 1..]
  {
  }

  /** Appending a text and then a space is appending the text followed by a space. */
  lemma AppendSpaced(x: string, t: string)
    ensures x + t + " " == x + (t + " ")
  {
  }

  lemma Regroup(x: string, t: string, y: string)
    ensures (x + (t + " ")) + y == (x + t) + (" " + y)
  {
  }

  /** `t` occurs in `r` starting at offset `off`. */
  predicate AppearsAt(r: string, t: string, off: nat)
  {
    off + |t| <= |r| && r[off..off + |t|] == t
  }

  /** Splits the spaced text around its `i`-th text. */
  lemma SpacedSplit(ts: seq<string>, i: nat)
    requires i < |ts|
    ensures Spaced(ts) == (Spaced(ts[..i]) + ts[i]) + (" " + Spaced(ts[i + 1..]))
  {
    SplitAt(ts, i);
    SpacedAppend(ts[..i] + [ts[i]], ts[i + 1..]);
    SpacedAppend(ts[..i], [ts[i]]);
    SpacedOptional([ts[i]]);
    Regroup(Spaced(ts[..i]), ts[i], Spaced(ts[i + 1..]));
  }

  /** A non-empty spaced text starts where its first text starts. */
  lemma SpacedOpensWithFirst(ts: seq<string>)
    requires ts != [] && ts[0] != []
    ensures Spaced(ts) != [] && Spaced(ts)[0] == ts[0][0]
  {
  }

  /**
   * When the first text opens with a non-blank character, every text that ends in
   * a non-blank character survives trimming, at the offset its predecessors (each
   * followed by a space) take up.
   */
  lemma SpacedTextSurvivesTrim(ts: seq<string>, i: nat, r: string)
    requires i < |ts| && ts[0] != [] && !IsWhitespace(ts[0][0])
    requires ts[i] != [] && !IsWhitespace(ts[i][|ts[i]| - 1])
    requires r == Trim(Spaced(ts))
    ensures AppearsAt(r, ts[i], |Spaced(ts[..i])|)
  {
    var pre := Spaced(ts[..i]);
    var p := pre + ts[i];
    SpacedSplit(ts, i);
    if i > 0 {
      assert ts[..i][0] == ts[0];
      SpacedOpensWithFirst(ts[..i]);
    }
    assert p[0] == ts[0][0];
    TrimKeepsPrefix(p, " " + Spaced(ts[i + 1..]));
  }

  lemma TextsAppend(a: seq<Clause>, b: seq<Clause>)
    ensures Texts(a + b) == Texts(a) + Texts(b)
  {
  }

  lemma TextsSix(a: seq<Clause>, b: seq<Clause>, c: seq<Clause>, d: seq<Clause>, e: seq<Clause>, f: seq<Clause>)
    ensures Texts(a + b + c + d + e + f) == Texts(a) + Texts(b) + Texts(c) + Texts(d) + Texts(e) + Texts(f)
  {
    TextsAppend(a + b + c + d + e, f);
    TextsAppend(a + b + c + d, e);
    TextsAppend(a + b + c, d);
    TextsAppend(a + b, c);
    TextsAppend(a, b);
  }

  /** The clause texts, grouped by the step of the compiler that adds them. */
  lemma TextsOfClauses(settings: Settings)
    ensures Texts(Clauses(settings))
      == [IdentitySentence]
      + (if PresetKnown(settings.preset) then [Presets[settings.preset.value]] else [])
      + (if Truthy(settings.custom) then [settings.custom.value] else [])
      + (if settings.humor == Some(false) then [NoHumorSentence] else [])
      + (if settings.empathy == Some(false) then [NoEmpathySentence] else [])
      + (if Truthy(settings.formality) then [ToneSentence(settings.formality.value)] else [])
  {
    var p := if PresetKnown(settings.preset) then [PresetText(Presets[settings.preset.value])] else [];
    var c := if Truthy(settings.custom) then [CustomText(settings.custom.value)] else [];
    var h := if settings.humor == Some(false) then [NoHumor] else [];
    var e := if settings.empathy == Some(false) then [NoEmpathy] else [];
    var f := if Truthy(settings.formality) then [Tone(settings.formality.value)] else [];
    TextsSix([Identity], p, c, h, e, f);
    assert Texts([Identity]) == [IdentitySentence];
    assert Texts(p) == if PresetKnown(settings.preset) then [Presets[settings.preset.value]] else [];
    assert Texts(c) == if Truthy(settings.custom) then [settings.custom.value] else [];
    assert Texts(h) == if settings.humor == Some(false) then [NoHumorSentence] else [];
    assert Texts(e) == if settings.empathy == Some(false) then [NoEmpathySentence] else [];
    assert Texts(f) == if Truthy(settings.formality) then [ToneSentence(settings.formality.value)] else [];
  }

  /** Before trimming, the compiler's text is exactly the clause texts, in order, each followed by a space. */
  lemma UntrimmedIsSpacedClauses(settings: Settings)
    ensures Untrimmed(settings) == Spaced(Texts(Clauses(settings)))
  {
    var p := if PresetKnown(settings.preset) then [Presets[settings.preset.value]] else [];
    var c := if Truthy(settings.custom) then [settings.custom.value] else [];
    var h := if settings.humor == Some(false) then [NoHumorSentence] else [];
    var e := if settings.empathy == Some(false) then [NoEmpathySentence] else [];
    var f := if Truthy(settings.formality) then [ToneSentence(settings.formality.value)] else [];
    TextsOfClauses(settings);
    SpacedSix([IdentitySentence], p, c, h, e, f);
    SpacedOptional([IdentitySentence]);
    SpacedOptional(p);
    SpacedOptional(c);
    SpacedOptional(h);
    SpacedOptional(e);
    SpacedOptional(f);
  }

  /** The compiled prompt is the clause texts, each followed by a space, trimmed. */
  lemma PromptIsSpacedClauses(settings: Settings)
    ensures GeneratePrompt(settings) == Trim(Spaced(Texts(Clauses(settings))))
  {
    UntrimmedIsSpacedClauses(settings);
  }

  /**
   * The clauses open with the identity sentence and come in the fixed order
   * preset, custom text, humor, empathy, formality, each kind at most once.
   */
  lemma ClausesInOrder(settings: Settings)
    ensures var cs := Clauses(settings);
      1 <= |cs| <= 6 && cs[0] == Identity
      && forall i, j | 0 <= i < j < |cs| :: Rank(cs[i]) < Rank(cs[j])
  {
  }

  /**
   * Which clauses appear: a preset only when its identifier is defined, custom text
   * and a tone only when non-empty, the humor and empathy clauses only when those
   * fields are exactly `false`.
   */
  lemma ClausePresence(settings: Settings, t: string)
    ensures var cs := Clauses(settings);
      (PresetText(t) in cs <==> PresetKnown(settings.preset) && t == Presets[settings.preset.value])
      && (CustomText(t) in cs <==> settings.custom == Some(t) && t != "")
      && (NoHumor in cs <==> settings.humor == Some(false))
      && (NoEmpathy in cs <==> settings.empathy == Some(false))
      && (Tone(t) in cs <==> settings.formality == Some(t) && t != "")
  {
  }

  /**
   * Every clause whose text ends in a non-blank character appears verbatim in the
   * compiled prompt, at the offset its predecessors (each followed by a space)
   * take up; so the clauses appear in the prompt in clause order.
   */
  lemma ClauseInPrompt(settings: Settings, i: nat)
    requires i < |Clauses(settings)|
    requires var t := Texts(Clauses(settings))[i]; t != [] && !IsWhitespace(t[|t| - 1])
    ensures var ts := Texts(Clauses(settings));
      AppearsAt(GeneratePrompt(settings), ts[i], |Spaced(ts[..i])|)
  {
    var ts, r := Texts(Clauses(settings)), GeneratePrompt(settings);
    assert ts != [] && ts[0] != [] && !IsWhitespace(ts[0][0]) by {
      OpeningText(settings);
    }
    assert r == Trim(Spaced(ts)) by {
      PromptIsSpacedClauses(settings);
    }
    SpacedTextSurvivesTrim(ts, i, r);
  }

  /** The first clause text is the identity sentence, which opens with a non-blank character. */
  lemma OpeningText(settings: Settings)
    ensures var ts := Texts(Clauses(settings));
      ts != [] && ts[0] != [] && !IsWhitespace(ts[0][0])
  {
    assert Clauses(settings)[0] == Identity;
    IdentityShape();
  }

  lemma IdentityShape()
    ensures |IdentitySentence| > 1 && IdentitySentence[0] == 'Y'
    ensures IdentitySentence[|IdentitySentence| - 1] == '.'
  {
    assert IdentitySentence == "You are Great AI, " + "developed by Evolutional Tech.";
  }

  /** The prompt opens with the identity sentence and has no whitespace at either end. */
  lemma PromptShape(settings: Settings)
    ensures var r := GeneratePrompt(settings);
      |IdentitySentence| <= |r| && r[..|IdentitySentence|] == IdentitySentence
      && !IsWhitespace(r[0]) && !IsWhitespace(r[|r| - 1])
  {
    var ts, r := Texts(Clauses(settings)), GeneratePrompt(settings);
    assert ts[0] == IdentitySentence by {
      assert Clauses(settings)[0] == Identity;
    }
    assert |IdentitySentence| <= |r| && r[..|IdentitySentence|] == IdentitySentence by {
      IdentityShape();
      ClauseInPrompt(settings, 0);
      assert ts[..0] == [];
    }
  }

  /** With nothing set, the prompt is the identity sentence alone. */
  lemma EmptySettingsPrompt()
    ensures GeneratePrompt(NoSettings) == IdentitySentence
  {
    IdentityShape();
    UntrimmedIsSpacedClauses(NoSettings);
    assert Texts(Clauses(NoSettings)) == [IdentitySentence];
    SpacedOptional([IdentitySentence]);
    TrimDropsTrailingSpace(IdentitySentence);
  }

  /** A missing, empty or undefined preset identifier adds nothing. */
  lemma UnknownPresetAddsNothing(settings: Settings)
    requires !PresetKnown(settings.preset)
    ensures GeneratePrompt(settings) == GeneratePrompt(settings.(preset := None))
  {
    assert PresetPiece(settings.preset) == PresetPiece(None);
  }

  /** An absent humor or empathy flag reads like `true`: only an explicit `false` adds a clause. */
  lemma AbsentToggleAddsNothing(settings: Settings)
    ensures GeneratePrompt(settings.(humor := None)) == GeneratePrompt(settings.(humor := Some(true)))
    ensures GeneratePrompt(settings.(empathy := None)) == GeneratePrompt(settings.(empathy := Some(true)))
  {
    assert HumorPiece(None) == HumorPiece(Some(true));
    assert EmpathyPiece(None) == EmpathyPiece(Some(true));
  }

  /** The creativity value has no effect on the prompt. */
  lemma CreativityIgnored(settings: Settings, creativity: Option<string>)
    ensures GeneratePrompt(settings.(creativity := creativity)) == GeneratePrompt(settings)
  {
  }
}
