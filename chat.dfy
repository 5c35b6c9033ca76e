/**
 * The dispatch logic of the chat widget (scripts/scripts.js:62-142, 145-148,
 * 176-220, 246-251): recording turns, routing a message to the offline responder
 * or to the backend, building the message list sent to the backend, turning the
 * backend's answer into exactly one bot turn, and saving a personality.
 */
module Chat {

  import opened Options
  import opened Text
  import opened Session
  import opened Personality
  import opened Offline

  /** The sender strings the widget records. */
  const UserSender := "user"
  const BotSender := "bot"

  /** The `currentApi` value that selects the offline responder. */
  const OfflineApi := "offline"
  const RemoteApi := "greatai"

  /** The window `processAPIRequest` applies on top of `getContext`. */
  const RequestWindow: nat := 50

  const DefaultSystemPrompt := "You are Great AI — an advanced, intelligent assistant developed by Evolutional Tech."
  const Apology := "Sorry, I couldn't process your request. Please try again."
  const PersonalityUpdated := "Personality updated ✅"

  datatype Role = System | User | Assistant

  /** One entry of the `messages` list sent to the backend. */
  datatype Message = Message(role: Role, content: string)

  /**
   * What the backend call yields, as far as the widget looks at it: the message
   * content of each entry of `choices`, or a failure (the request failed, the body
   * did not parse, or it has no `choices`).
   */
  datatype Response = Ok(choices: seq<string>) | Fail

  /** The role a logged turn takes in the request: the bot speaks as the assistant, any other sender as the user. */
  function RoleOf(sender: string): Role
  {
    if sender == BotSender then Assistant else User
  }

  /** The system prompt: the compiled personality when one is set, the fixed default otherwise. */
  function SystemPrompt(personality: Option<Settings>): string
  {
    match personality
    case Some(settings) => GeneratePrompt(settings)
    case None => DefaultSystemPrompt
  }

  /** Each logged turn as a message, in order. */
  function ContextMessages(context: seq<Turn>): (r: seq<Message>)
    ensures |r| == |context|
    ensures forall i | 0 <= i < |context| ::
      r[i].role == RoleOf(context[i].sender) && r[i].content == context[i].content
  {
    if context == [] then []
    else [Message(RoleOf(context[0].sender), context[0].content)] + ContextMessages(context[1..])
  }

  /**
   * The `messages` list: the system message, then the context turns with `bot`
   * mapped to `assistant` and every other sender to `user`, then the new text.
   */
  function BuildMessages(personality: Option<Settings>, context: seq<Turn>, text: string): (r: seq<Message>)
    ensures |r| == |context| + 2
    ensures r[0] == Message(System, SystemPrompt(personality))
    ensures forall i | 0 <= i < |context| ::
      r[i + 1].role == (if context[i].sender == BotSender then Assistant else User)
      && r[i + 1].content == context[i].content
    ensures r[|r| - 1] == Message(User, text)
  {
    var body := ContextMessages(context);
    var r := [Message(System, SystemPrompt(personality))] + body + [Message(User, text)];
    assert forall i | 0 <= i < |context| :: r[i + 1] == body[i];
    r
  }

  /** The bot turn an answer yields: the first choice when there is one, the apology otherwise. */
  function ReplyOf(response: Response): string
  {
    if response.Ok? && |response.choices| > 0 then response.choices[0] else Apology
  }

  /**
   * The context `processAPIRequest` sends is the last 20 turns: the further
   * `slice(-50)` changes nothing, so at most 22 messages go out.
   */
  lemma RequestContextIsLastTwenty(history: seq<Turn>)
    ensures SliceLast(SliceLast(history, ContextWindow), RequestWindow) == SliceLast(history, ContextWindow)
    ensures |SliceLast(history, ContextWindow)| <= 20
  {
    SliceLastTwice(history, ContextWindow, RequestWindow);
  }

  /**
   * Because the user turn is logged before the request is built, the text of a
   * typed message goes out twice: as the last context message and as the final one.
   */
  lemma UserTextSentTwice(personality: Option<Settings>, history: seq<Turn>, text: string)
    ensures var context := SliceLast(SliceLast(history + [Turn(UserSender, text)], ContextWindow), RequestWindow);
      var msgs := BuildMessages(personality, context, text);
      |msgs| >= 3 && msgs[|msgs| - 2] == Message(User, text) && msgs[|msgs| - 1] == Message(User, text)
  {
    var h := history + [Turn(UserSender, text)];
    RequestContextIsLastTwenty(h);
    SliceLastEndsWith(history, Turn(UserSender, text), ContextWindow);
    var context := SliceLast(h, ContextWindow);
    var msgs := BuildMessages(personality, context, text);
    assert msgs[|context|] == Message(User, text) by {
      assert context[|context| - 1] == Turn(UserSender, text);
    }
  }

  /** The answer yields the content of the first choice when there is one, the apology otherwise. */
  lemma ReplyOfCases(response: Response)
    ensures response.Ok? && response.choices != [] ==> ReplyOf(response) == response.choices[0]
    ensures response == Fail || response.choices == [] ==> ReplyOf(response) == Apology
  {
  }

  /**
   * The inputs of the personality dialog. `selected` says whether a preset card is
   * selected; `presetId` is that card's preset identifier, absent when the card
   * carries none.
   */
  datatype PersonalityForm = PersonalityForm(
    selected: bool,
    presetId: Option<string>,
    custom: string,
    creativity: string,
    humor: bool,
    empathy: bool,
    formality: string)

  /** The personality the save button stores, from the active tab and the dialog inputs. */
  function SavedPersonality(tab: string, form: PersonalityForm, current: Option<Settings>): Option<Settings>
  {
    if tab == "presets" then
      if form.selected then Some(NoSettings.(preset := form.presetId)) else current
    else if tab == "custom" then
      Some(NoSettings.(custom := Some(form.custom), creativity := Some(form.creativity)))
    else if tab == "advanced" then
      Some(NoSettings.(humor := Some(form.humor), empathy := Some(form.empathy), formality := Some(form.formality)))
    else
      current
  }

  /**
   * What a save means for the prompt: a preset tab without a selection, or an
   * unknown tab, keeps the old personality. Otherwise the saved personality's
   * clauses are exactly those of the active tab: the selected card's preset text
   * when its identifier is defined (a card without an identifier still replaces
   * the personality, leaving the identity sentence alone); the custom text when
   * non-empty; a humor clause when humor is unchecked, an empathy clause when
   * empathy is unchecked and a tone clause when a formality is chosen.
   */
  lemma SavedPersonalityClauses(tab: string, form: PersonalityForm, current: Option<Settings>)
    ensures var saved := SavedPersonality(tab, form, current);
      && ((tab == "presets" && !form.selected) || tab !in {"presets", "custom", "advanced"}
          ==> saved == current)
      && (tab == "presets" && form.selected ==>
          saved.Some? && Clauses(saved.value)
            == [Identity] + (if PresetKnown(form.presetId) then [PresetText(Presets[form.presetId.value])] else []))
      && (tab == "custom" ==>
          saved.Some? && Clauses(saved.value) == [Identity] + (if form.custom != "" then [CustomText(form.custom)] else []))
      && (tab == "advanced" ==>
          saved.Some? && Clauses(saved.value)
            == [Identity] + (if !form.humor then [NoHumor] else []) + (if !form.empathy then [NoEmpathy] else [])
               + (if form.formality != "" then [Tone(form.formality)] else []))
  {
  }

  /** The shortcut buttons and the text each one sends. */
  datatype Shortcut = Joke | Quote | Calculator

  function ShortcutText(shortcut: Shortcut): string
  {
    match shortcut
    case Joke => "Tell me a joke"
    case Quote => "Give me a random motivational quote"
    case Calculator => "Open calculator"
  }

  /** The widget's state: the session memory, the selected backend and the saved personality. */
  class ChatSession {
    const memory: SessionMemory
    var currentApi: string
    var currentPersonality: Option<Settings>

    constructor ()
      ensures fresh(memory) && memory.history == []
      ensures currentApi == RemoteApi && currentPersonality == None
    {
      memory := new SessionMemory();
      currentApi := RemoteApi;
      currentPersonality := None;
    }

    /** `addMessage`: renders the message (not modelled) and logs it. */
    method AddMessage(content: string, sender: string)
      modifies memory
      ensures memory.history == old(memory.history) + [Turn(sender, content)]
    {
      memory.Add(sender, content);
    }

    /**
     * `sendMessage`: blank input is ignored; otherwise the trimmed text is logged as
     * a user turn, then one bot turn follows, from the offline responder or from the
     * backend's answer. Returns the message list sent to the backend, if any.
     */
    method SendMessage(input: string, response: Response) returns (request: Option<seq<Message>>)
      modifies memory
      ensures var text := Trim(input);
        && (AllWhitespace(input) ==> memory.history == old(memory.history) && request == None)
        && (!AllWhitespace(input) && currentApi == OfflineApi ==>
              request == None
              && memory.history == old(memory.history) + [Turn(UserSender, text), Turn(BotSender, OfflineReply(text))])
        && (!AllWhitespace(input) && currentApi != OfflineApi ==>
              request == Some(BuildMessages(currentPersonality,
                                            SliceLast(old(memory.history) + [Turn(UserSender, text)], ContextWindow), text))
              && memory.history == old(memory.history) + [Turn(UserSender, text), Turn(BotSender, ReplyOf(response))])
    {
      var text := Trim(input);
      if text == [] {
        return None;
      }
      AddMessage(text, UserSender);
      if currentApi == OfflineApi {
        var reply := GetOfflineResponse(text);
        AddMessage(reply, BotSender);
        request := None;
      } else {
        var sent := ProcessAPIRequest(text, response);
        request := Some(sent);
      }
    }

    /**
     * `processAPIRequest`: builds the message list from the personality and the
     * last turns, sends it, and logs exactly one bot turn: the first choice's
     * content, or the apology when the call fails or brings no choice.
     */
    method ProcessAPIRequest(text: string, response: Response) returns (request: seq<Message>)
      modifies memory
      ensures request == BuildMessages(currentPersonality, SliceLast(old(memory.history), ContextWindow), text)
      ensures memory.history == old(memory.history) + [Turn(BotSender, ReplyOf(response))]
    {
      var context := SliceLast(memory.GetContext(), RequestWindow);
      RequestContextIsLastTwenty(memory.history);
      request := BuildMessages(currentPersonality, context, text);
      if response.Ok? && |response.choices| > 0 {
        AddMessage(response.choices[0], BotSender);
      } else {
        AddMessage(Apology, BotSender);
      }
    }

    /** A quick-reply button: logs the option as a user turn, then always asks the backend. */
    method QuickReply(option: string, response: Response) returns (request: seq<Message>)
      modifies memory
      ensures request == BuildMessages(currentPersonality,
                                       SliceLast(old(memory.history) + [Turn(UserSender, option)], ContextWindow), option)
      ensures memory.history == old(memory.history) + [Turn(UserSender, option), Turn(BotSender, ReplyOf(response))]
    {
      AddMessage(option, UserSender);
      request := ProcessAPIRequest(option, response);
    }

    /** The joke, quote and calculator buttons: they ask the backend without logging a user turn. */
    method PressShortcut(shortcut: Shortcut, response: Response) returns (request: seq<Message>)
      modifies memory
      ensures request == BuildMessages(currentPersonality, SliceLast(old(memory.history), ContextWindow), ShortcutText(shortcut))
      ensures memory.history == old(memory.history) + [Turn(BotSender, ReplyOf(response))]
    {
      request := ProcessAPIRequest(ShortcutText(shortcut), response);
    }

    /** The save button of the personality dialog: stores the new personality and logs the confirmation. */
    method SavePersonality(tab: string, form: PersonalityForm)
      modifies this, memory
      ensures currentPersonality == SavedPersonality(tab, form, old(currentPersonality))
      ensures currentApi == old(currentApi)
      ensures memory.history == old(memory.history) + [Turn(BotSender, PersonalityUpdated)]
    {
      if tab == "presets" {
        if form.selected {
          currentPersonality := Some(NoSettings.(preset := form.presetId));
        }
      } else if tab == "custom" {
        currentPersonality := Some(NoSettings.(custom := Some(form.custom), creativity := Some(form.creativity)));
      } else if tab == "advanced" {
        currentPersonality := Some(NoSettings.(humor := Some(form.humor), empathy := Some(form.empathy),
                                               formality := Some(form.formality)));
      }
      AddMessage(PersonalityUpdated, BotSender);
    }

    /** The backend selector. */
    method SelectApi(value: string)
      modifies this
      ensures currentApi == value && currentPersonality == old(currentPersonality)
    {
      currentApi := value;
    }

    /** `clearChat`: empties the log. */
    method ClearChat()
      modifies memory
      ensures memory.history == []
    {
      memory.Clear();
    }
  }
}
