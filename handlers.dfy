/**
 * The booking conversation (`app/handlers.py`): a per-user finite-state
 * context with a data map, driven by `/start`, a language choice and a
 * slot button press.
 *
 * The token lookup (`get_token`) arrives as its outcome, an optional row;
 * the slot fetch (`get_user_slots`) arrives as a function from the stored
 * access token to its outcome, so a caller instantiates it with
 * `Calendly.GetUserSlots`. Outbound chat messages are appended to `sent`.
 */
module Handlers {
  import opened Wrappers
  import opened Text
  import Calendly
  import TokenStore

  /** `BookingState`: the two named states of the flow. */
  datatype BookingState = Language | ChoosingTime

  /** An inline button: its caption and the callback data it sends back. */
  datatype Button = Button(text: string, callbackData: string)

  /** What a message carries besides its text. */
  datatype Markup =
    | NoMarkup
    | LanguageKeyboard(labels: seq<string>)   // one reply-keyboard row per caption
    | SlotKeyboard(buttons: seq<Button>)      // one inline-keyboard row per button

  /** One outbound chat message. */
  datatype Reply = Reply(text: string, markup: Markup)

  /** `LANGUAGES`, in the dictionary's order: display caption, then language code. */
  const Languages: seq<(string, string)> := [
    ("🇺🇿 Uzbek", "uz"),
    ("🇷🇺 Русский", "ru"),
    ("🇬🇧 English", "en")
  ]

  /** The labels shown on the language keyboard, in order. */
  function LanguageLabels(): (labels: seq<string>)
    ensures labels == ["🇺🇿 Uzbek", "🇷🇺 Русский", "🇬🇧 English"]
  {
    seq(|Languages|, i requires 0 <= i < |Languages| => Languages[i].0)
  }

  /** The code the first entry labelled `caption` maps to, if any. */
  function Lookup(table: seq<(string, string)>, caption: string): (code: Option<string>)
    ensures code.None? <==> forall i :: 0 <= i < |table| ==> table[i].0 != caption
    ensures code.Some? ==> exists i :: 0 <= i < |table| && table[i] == (caption, code.value)
  {
    if table == [] then None
    else if table[0].0 == caption then Some(table[0].1)
    else Lookup(table[1..], caption)
  }

  /** `LANGUAGES.get(text)`: exactly the three labels are known, each to its own code. */
  function LanguageCode(caption: string): (code: Option<string>)
    ensures code.Some? <==> caption in LanguageLabels()
    ensures code == Some("uz") <==> caption == "🇺🇿 Uzbek"
    ensures code == Some("ru") <==> caption == "🇷🇺 Русский"
    ensures code == Some("en") <==> caption == "🇬🇧 English"
  {
    Lookup(Languages, caption)
  }

  const LanguagePrompt := "Please select your language / Пожалуйста, выберите язык / Iltimos, tilni tanlang:"
  const ChooseFromButtons := "❗ Please select from the buttons below."
  const FetchingNotice := "🔍 Fetching your available time slots..."
  const NoSlotsNotice := "😔 No available slots at the moment. Please try again later."
  const SlotsHeader := "✅ Available time slots:"
  const PaymentPlaceholder := "💳 Payment flow will begin here in the next step."
  const ConnectBase := "https://gostudybot.onrender.com/auth/connect?telegram_id="
  const CallbackPrefix := "book:"

  /** Keys of the per-user data map. */
  const LanguageKey := "language"
  const SlotKey := "slot"

  /** The link a user without a token is sent to. */
  function ConnectUrl(userId: int): (url: string)
    ensures ConnectBase <= url && ParseInt(url[|ConnectBase|..]) == userId
  {
    ParseIntToDecimal(userId);
    assert (ConnectBase + IntToDecimal(userId))[|ConnectBase|..] == IntToDecimal(userId);
    ConnectBase + IntToDecimal(userId)
  }

  const ConnectIntro := "🔐 Please connect your Calendly account first:\n\n<a href=\""
  const ConnectTail := "\">Connect Calendly</a>"

  /** The HTML message with the connect link. */
  function ConnectMessage(userId: int): (m: string)
    ensures ConnectIntro + ConnectUrl(userId) <= m
  {
    ConnectIntro + ConnectUrl(userId) + ConnectTail
  }

  const FetchFailedIntro := "❗ Failed to fetch slots: "

  /** The message for a failed fetch: it ends with the exception's text. */
  function FetchFailedMessage(e: Calendly.SlotError): (m: string)
    ensures |Calendly.ErrorText(e)| <= |m| && m[|m| - |Calendly.ErrorText(e)|..] == Calendly.ErrorText(e)
  {
    FetchFailedIntro + Calendly.ErrorText(e)
  }

  const SelectedIntro := "🧾 You selected: <b>"
  const SelectedTail := "</b>\n\n💳 Please select a payment method:"

  /** The confirmation: the chosen slot, verbatim, right after the opening text. */
  function SelectedMessage(slot: string): (m: string)
    ensures SelectedIntro + slot <= m && m[|SelectedIntro|..|SelectedIntro| + |slot|] == slot
  {
    SelectedIntro + slot + SelectedTail
  }

  /** Reading the id back out of the connect link gives the user it was sent to. */
  lemma ConnectLinkCarriesUser(userId: int)
    ensures var m := ConnectMessage(userId);
      var start := |ConnectIntro| + |ConnectBase|;
      start + |ConnectTail| <= |m| &&
      ParseInt(m[start..|m| - |ConnectTail|]) == userId
  {
    ConnectMessageParts(userId);
    ParseIntToDecimal(userId);
    Middle(ConnectIntro + ConnectBase, IntToDecimal(userId), ConnectTail, userId);
  }

  /** The connect message is the intro, the base URL, the id's digits and the closing tag. */
  lemma ConnectMessageParts(userId: int)
    ensures ConnectMessage(userId) == ConnectIntro + ConnectBase + IntToDecimal(userId) + ConnectTail
  {
    assert ConnectUrl(userId) == ConnectBase + IntToDecimal(userId);
  }

  /** The middle of a three-part concatenation, cut out by the lengths of the other two. */
  lemma Middle(x: string, y: string, z: string, v: int)
    requires ParseInt(y) == v
    ensures |x| + |z| <= |x + y + z|
    ensures ParseInt((x + y + z)[|x|..|x + y + z| - |z|]) == v
  {
    assert (x + y + z)[|x|..|x + y + z| - |z|] == y;
  }

  /** So two different users never get the same connect message. */
  lemma ConnectMessageInjective(a: int, b: int)
    requires ConnectMessage(a) == ConnectMessage(b)
    ensures a == b
  {
    ConnectLinkCarriesUser(a);
    ConnectLinkCarriesUser(b);
  }

  /** The callback data of a slot button: `f"book:{slot}"`. */
  function EncodeCallback(slot: string): (data: string)
    ensures CallbackPrefix <= data && data[|CallbackPrefix|..] == slot
  {
    CallbackPrefix + slot
  }

  /** `data.split("book:")[1]`, with `None` where Python raises `IndexError`. */
  function DecodeCallback(data: string): (slot: Option<string>)
    ensures slot.None? <==> !Contains(data, CallbackPrefix)
  {
    SplitCount(data, CallbackPrefix);
    var parts := Split(data, CallbackPrefix);
    if |parts| >= 2 then Some(parts[1]) else None
  }

  /** The first part of a split is a prefix of the string, free of the separator, and all of it when the separator is absent. */
  lemma SplitHead(s: string, sep: string)
    requires sep != []
    ensures Split(s, sep)[0] <= s
    ensures !Contains(Split(s, sep)[0], sep)
    ensures !Contains(s, sep) ==> Split(s, sep) == [s]
  {
    SplitPartsFree(s, sep);
  }

  /**
   * For any data the handler accepts (it starts with `book:`), decoding
   * succeeds and yields the text after the prefix up to the next `book:`;
   * when there is no further `book:` it yields all of it.
   */
  lemma DecodeAccepted(data: string)
    requires CallbackPrefix <= data
    ensures DecodeCallback(data).Some?
    ensures DecodeCallback(data).value <= data[|CallbackPrefix|..]
    ensures !Contains(DecodeCallback(data).value, CallbackPrefix)
    ensures !Contains(data[|CallbackPrefix|..], CallbackPrefix) ==> DecodeCallback(data).value == data[|CallbackPrefix|..]
    ensures Contains(data[|CallbackPrefix|..], CallbackPrefix) ==>
      OccursAt(data[|CallbackPrefix|..], CallbackPrefix, |DecodeCallback(data).value|)
  {
    assert Find(data, CallbackPrefix) == Some(0);
    var rest := data[|CallbackPrefix|..];
    assert Split(data, CallbackPrefix) == [data[..0]] + Split(rest, CallbackPrefix);
    SplitHead(rest, CallbackPrefix);
    match Find(rest, CallbackPrefix)
    case None =>
    case Some(i) =>
      assert Split(rest, CallbackPrefix)[0] == rest[..i];
  }

  /** Decoding the button's data gives back the slot, for any slot without `book:` in it. */
  lemma DecodeEncode(slot: string)
    requires !Contains(slot, CallbackPrefix)
    ensures DecodeCallback(EncodeCallback(slot)) == Some(slot)
  {
    var data := EncodeCallback(slot);
    assert data[|CallbackPrefix|..] == slot;
    DecodeAccepted(data);
  }

  /** Whatever the slot, decoding its button's data gives a prefix of it: a slot is never extended or altered, only cut at a `book:`. */
  lemma DecodeEncodePrefix(slot: string)
    ensures DecodeCallback(EncodeCallback(slot)).Some?
    ensures DecodeCallback(EncodeCallback(slot)).value <= slot
  {
    var data := EncodeCallback(slot);
    assert data[|CallbackPrefix|..] == slot;
    DecodeAccepted(data);
  }

  /** One button per slot, in order, labelled with the slot and carrying `book:` + slot. */
  function SlotButtons(slots: seq<string>): (buttons: seq<Button>)
    ensures |buttons| == |slots|
    ensures forall i :: 0 <= i < |slots| ==>
      buttons[i].text == slots[i] && buttons[i].callbackData == CallbackPrefix + slots[i]
  {
    if slots == [] then [] else [Button(slots[0], EncodeCallback(slots[0]))] + SlotButtons(slots[1..])
  }

  /** For slots without `book:`, pressing any slot button selects exactly the slot it is labelled with. */
  lemma SlotButtonsDecode(slots: seq<string>)
    requires forall i :: 0 <= i < |slots| ==> !Contains(slots[i], CallbackPrefix)
    ensures forall i :: 0 <= i < |slots| ==>
      DecodeCallback(SlotButtons(slots)[i].callbackData) == Some(slots[i])
  {
    forall i | 0 <= i < |slots| ensures DecodeCallback(SlotButtons(slots)[i].callbackData) == Some(slots[i]) {
      DecodeEncode(slots[i]);
    }
  }

  /** Messages the `CommandStart` filter matches: `/start`, bare or followed by a space and arguments. */
  predicate IsStartCommand(text: string)
    ensures IsStartCommand(text) <==>
      "/start" <= text && (|text| == |"/start"| || text[|"/start"|] == ' ')
  {
    text == "/start" || "/start " <= text
  }

  /** The state of one user's conversation, as the dispatcher's storage holds it. */
  class Conversation {
    const userId: int
    var state: Option<BookingState>
    var data: map<string, string>
    var sent: seq<Reply>

    /** A user the storage has not seen: no state, no data, nothing sent. */
    constructor (userId: int)
      ensures this.userId == userId
      ensures state == None && data == map[] && sent == []
    {
      this.userId := userId;
      state := None;
      data := map[];
      sent := [];
    }

    /** `start_command`: clear state and data, prompt for a language, enter `language`. */
    method StartCommand()
      modifies this
      ensures state == Some(Language)
      ensures data == map[]
      ensures sent == old(sent) + [Reply(LanguagePrompt, LanguageKeyboard(LanguageLabels()))]
    {
      state := None;
      data := map[];
      sent := sent + [Reply(LanguagePrompt, LanguageKeyboard(LanguageLabels()))];
      state := Some(Language);
    }

    /**
     * `set_language`, dispatched only in state `language`. An unknown caption
     * re-prompts and changes nothing else. A known one records its code;
     * then without a token the user gets the connect link; with one the
     * slots are fetched, and only a non-empty list moves the state on.
     */
    method SetLanguage(
      text: string,
      token: Option<TokenStore.Row>,
      fetchSlots: string -> Result<seq<string>, Calendly.SlotError>)
      requires state == Some(Language)
      modifies this
      ensures LanguageCode(text).None? ==>
        state == old(state) && data == old(data) && sent == old(sent) + [Reply(ChooseFromButtons, NoMarkup)]
      ensures LanguageCode(text).Some? ==> data == old(data)[LanguageKey := LanguageCode(text).value]
      ensures LanguageCode(text).Some? && token.None? ==>
        state == Some(Language) && sent == old(sent) + [Reply(ConnectMessage(userId), NoMarkup)]
      ensures LanguageCode(text).Some? && token.Some? ==>
        match fetchSlots(token.value.accessToken)
        case Failure(e) =>
          state == Some(Language) &&
          sent == old(sent) + [Reply(FetchingNotice, NoMarkup)] + [Reply(FetchFailedMessage(e), NoMarkup)]
        case Success(slots) =>
          if slots == [] then
            state == Some(Language) &&
            sent == old(sent) + [Reply(FetchingNotice, NoMarkup)] + [Reply(NoSlotsNotice, NoMarkup)]
          else
            state == Some(ChoosingTime) &&
            sent == old(sent) + [Reply(FetchingNotice, NoMarkup)] + [Reply(SlotsHeader, SlotKeyboard(SlotButtons(slots)))]
      ensures state == Some(ChoosingTime) <==>
        LanguageCode(text).Some? && token.Some? &&
        match fetchSlots(token.value.accessToken)
        case Failure(_) => false
        case Success(slots) => slots != []
    {
      var lang := LanguageCode(text);
      if lang.None? {
        sent := sent + [Reply(ChooseFromButtons, NoMarkup)];
      } else {
        data := data[LanguageKey := lang.value];
        if token.None? {
          sent := sent + [Reply(ConnectMessage(userId), NoMarkup)];
        } else {
          sent := sent + [Reply(FetchingNotice, NoMarkup)];
          var fetched := fetchSlots(token.value.accessToken);
          match fetched
          case Failure(e) =>
            sent := sent + [Reply(FetchFailedMessage(e), NoMarkup)];
          case Success(slots) =>
            if slots == [] {
              sent := sent + [Reply(NoSlotsNotice, NoMarkup)];
            } else {
              sent := sent + [Reply(SlotsHeader, SlotKeyboard(SlotButtons(slots)))];
              state := Some(ChoosingTime);
            }
        }
      }
    }

    /**
     * `user_selected_time`, dispatched on any callback whose data starts
     * with `book:`, whatever the state: it records the decoded slot, sends
     * the confirmation and the payment placeholder, and leaves the state.
     */
    method UserSelectedTime(callbackData: string)
      requires CallbackPrefix <= callbackData
      modifies this
      ensures DecodeCallback(callbackData).Some?
      ensures var slot := DecodeCallback(callbackData).value;
        && state == old(state)
        && data == old(data)[SlotKey := slot]
        && sent == old(sent) + [Reply(SelectedMessage(slot), NoMarkup), Reply(PaymentPlaceholder, NoMarkup)]
    {
      DecodeAccepted(callbackData);
      var slot := DecodeCallback(callbackData).value;
      data := data[SlotKey := slot];
      sent := sent + [Reply(SelectedMessage(slot), NoMarkup)];
      sent := sent + [Reply(PaymentPlaceholder, NoMarkup)];
    }

    /**
     * The router for text messages: `start_command` is registered first and
     * matches in every state; `set_language` only in state `language`; any
     * other message is ignored.
     */
    method OnMessage(
      text: string,
      token: Option<TokenStore.Row>,
      fetchSlots: string -> Result<seq<string>, Calendly.SlotError>)
      modifies this
      ensures IsStartCommand(text) ==>
        state == Some(Language) && data == map[] &&
        sent == old(sent) + [Reply(LanguagePrompt, LanguageKeyboard(LanguageLabels()))]
      ensures !IsStartCommand(text) && old(state) != Some(Language) ==>
        state == old(state) && data == old(data) && sent == old(sent)
      ensures state == Some(ChoosingTime) ==>
        old(state) == Some(ChoosingTime) || (old(state) == Some(Language) && !IsStartCommand(text))
    {
      if IsStartCommand(text) {
        StartCommand();
      } else if state == Some(Language) {
        SetLanguage(text, token, fetchSlots);
      }
    }

    /** The router for button presses: only data starting with `book:` is handled. */
    method OnCallback(callbackData: string)
      modifies this
      ensures state == old(state)
      ensures !(CallbackPrefix <= callbackData) ==> data == old(data) && sent == old(sent)
      ensures CallbackPrefix <= callbackData ==>
        DecodeCallback(callbackData).Some? &&
        data == old(data)[SlotKey := DecodeCallback(callbackData).value] &&
        sent == old(sent) + [
          Reply(SelectedMessage(DecodeCallback(callbackData).value), NoMarkup),
          Reply(PaymentPlaceholder, NoMarkup)]
    {
      if CallbackPrefix <= callbackData {
        UserSelectedTime(callbackData);
      }
    }
  }

  /** A user without a token picks English: the connect link is sent, no slot buttons, and the state stays `language`. */
  method ScenarioNotConnected(userId: int) returns (replies: seq<Reply>, finalState: Option<BookingState>)
    ensures finalState == Some(Language)
    ensures replies == [
      Reply(LanguagePrompt, LanguageKeyboard(LanguageLabels())),
      Reply(ConnectMessage(userId), NoMarkup)]
  {
    var c := new Conversation(userId);
    var noFetch := (accessToken: string) => Failure(Calendly.NoEventTypes);
    var english := "🇬🇧 English";
    assert LanguageCode(english) == Some("en");
    c.StartCommand();
    c.SetLanguage(english, None, noFetch);
    replies, finalState := c.sent, c.state;
  }

  /** A connected user picks Russian and two slots come back: two buttons with those labels, state `choosing_time`. */
  method ScenarioTwoSlots(userId: int, row: TokenStore.Row) returns (last: Reply, finalState: Option<BookingState>, language: Option<string>)
    ensures finalState == Some(ChoosingTime)
    ensures language == Some("ru")
    ensures last.text == SlotsHeader
    ensures last.markup.SlotKeyboard? && |last.markup.buttons| == 2
    ensures last.markup.buttons[0].text == "2025-01-10 09:00"
    ensures last.markup.buttons[1].text == "2025-01-10 10:00"
  {
    var c := new Conversation(userId);
    var fetch := (accessToken: string) => Success(["2025-01-10 09:00", "2025-01-10 10:00"]);
    var russian := "🇷🇺 Русский";
    assert LanguageCode(russian) == Some("ru");
    c.StartCommand();
    c.SetLanguage(russian, Some(row), fetch);
    last, finalState := c.sent[|c.sent| - 1], c.state;
    language := if LanguageKey in c.data then Some(c.data[LanguageKey]) else None;
  }

  /** Pressing the button for a slot confirms that literal slot and sends the payment placeholder. */
  method ScenarioSelect(userId: int) returns (replies: seq<Reply>, chosen: Option<string>)
    ensures replies == [
      Reply(SelectedMessage("2025-01-10 09:00"), NoMarkup),
      Reply(PaymentPlaceholder, NoMarkup)]
    ensures chosen == Some("2025-01-10 09:00")
  {
    var c := new Conversation(userId);
    var slot := "2025-01-10 09:00";
    assert 'b' !in slot;
    AbsentLead(slot, CallbackPrefix);
    DecodeEncode(slot);
    c.OnCallback(EncodeCallback(slot));
    replies := c.sent;
    chosen := if SlotKey in c.data then Some(c.data[SlotKey]) else None;
  }
}
