/** The embeddable customer chat widget (components/chat_Setting/WidgetChatUI.tsx):
    the per-merchant session id kept in the browser's local storage, the
    transcript fed by live socket messages and by the history fetch, and the
    send form. */
module WidgetChat {
  import opened Wrappers
  import opened Text
  import opened ChatTypes

  const SessionKeyPrefix: string := "musaid_session_"
  const DefaultBotName: string := "MusaidBot"

  /** The widget's configuration, as the embedding page passes it. */
  datatype WidgetSettings = WidgetSettings(
    merchantId: string,
    botName: string,
    welcomeMessage: string,
    brandColor: string,
    fontFamily: string,
    headerBgColor: string,
    bodyBgColor: string)

  /** The local-storage key under which a merchant's session id is kept. */
  function SessionKey(merchantId: string): string {
    SessionKeyPrefix + merchantId
  }

  /** Each merchant has a key of its own. */
  lemma SessionKeysDistinct(m1: string, m2: string)
    requires m1 != m2
    ensures SessionKey(m1) != SessionKey(m2)
  {
    assert SessionKey(m1)[|SessionKeyPrefix|..] == m1;
    assert SessionKey(m2)[|SessionKeyPrefix|..] == m2;
  }

  /** `localStorage.getItem(key)` is truthy: present and not the empty string. */
  predicate HasSession(storage: map<string, string>, merchantId: string) {
    SessionKey(merchantId) in storage && storage[SessionKey(merchantId)] != ""
  }

  datatype SessionLookup = SessionLookup(sessionId: string, storage: map<string, string>)

  /** Get-or-create of the session id at `now` (the value of `Date.now()`): a
      stored id is returned and nothing is written; otherwise the decimal
      rendering of `now` is stored under the merchant's key, and only that
      key changes. Either way the key afterwards holds the returned id. */
  function GetOrCreateSessionId(storage: map<string, string>, merchantId: string, now: nat): (r: SessionLookup)
    ensures r.sessionId != ""
    ensures SessionKey(merchantId) in r.storage && r.storage[SessionKey(merchantId)] == r.sessionId
    ensures HasSession(storage, merchantId) ==>
      r.sessionId == storage[SessionKey(merchantId)] && r.storage == storage
    ensures !HasSession(storage, merchantId) ==>
      r.sessionId == NatToString(now) && r.storage == storage[SessionKey(merchantId) := r.sessionId]
  {
    var key := SessionKey(merchantId);
    if key in storage && storage[key] != "" then SessionLookup(storage[key], storage)
    else
      var s := NatToString(now);
      SessionLookup(s, storage[key := s])
  }

  /** A second visit, at any later time, resumes the same session and writes nothing. */
  lemma GetOrCreateIdempotent(storage: map<string, string>, merchantId: string, now1: nat, now2: nat)
    ensures var first := GetOrCreateSessionId(storage, merchantId, now1);
      GetOrCreateSessionId(first.storage, merchantId, now2) == first
  {
  }

  /** One merchant's get-or-create never touches another merchant's key, so
      the other merchant's session id is the same whether or not the first
      one ran before it. */
  lemma {:induction false} MerchantsIndependent(storage: map<string, string>, m1: string, m2: string, now1: nat, now2: nat)
    requires m1 != m2
    ensures var after := GetOrCreateSessionId(storage, m1, now1).storage;
      (SessionKey(m2) in after <==> SessionKey(m2) in storage)
      && (SessionKey(m2) in storage ==> after[SessionKey(m2)] == storage[SessionKey(m2)])
      && GetOrCreateSessionId(after, m2, now2).sessionId == GetOrCreateSessionId(storage, m2, now2).sessionId
  {
    SessionKeysDistinct(m1, m2);
  }

  /** The browser's `localStorage`, shared by every widget on the page. */
  class LocalStorage {
    var items: map<string, string>

    constructor (items: map<string, string>)
      ensures this.items == items
    {
      this.items := items;
    }
  }

  datatype OutgoingMessage = OutgoingMessage(role: Role, text: string)

  /** The body of the `sendMessage` REST call. */
  datatype SendRequest = SendRequest(
    merchantId: string,
    sessionId: string,
    channel: Channel,
    messages: seq<OutgoingMessage>)

  /** What a press of "send" posts: nothing for a blank input; otherwise one
      customer message on the webchat channel holding the input without its
      surrounding whitespace. */
  function SendRequestFor(merchantId: string, sessionId: string, input: string): (r: Option<SendRequest>)
    ensures r.None? <==> AllWhitespace(input)
    ensures r.Some? ==>
      r.value.merchantId == merchantId && r.value.sessionId == sessionId
      && r.value.channel == WebChat && |r.value.messages| == 1
      && r.value.messages[0].role == Customer
      && r.value.messages[0].text == Trim(input)
      && r.value.messages[0].text != []
      && !IsWhitespace(r.value.messages[0].text[0])
  {
    if IsBlank(input) then None
    else Some(SendRequest(merchantId, sessionId, WebChat, [OutgoingMessage(Customer, Trim(input))]))
  }

  /** The send button is disabled while the history loads and for a blank input. */
  function SendButtonDisabled(loading: bool, input: string): (disabled: bool)
    ensures disabled <==> loading || AllWhitespace(input)
    ensures !disabled ==> SendRequestFor("", "", input).Some?
  {
    loading || IsBlank(input)
  }

  /** The header shows the bot's name, or the default one when it is empty. */
  function HeaderTitle(settings: WidgetSettings): (title: string)
    ensures title != []
    ensures settings.botName != "" ==> title == settings.botName
    ensures settings.botName == "" ==> title == DefaultBotName
  {
    if settings.botName != "" then settings.botName else DefaultBotName
  }

  datatype Line = WelcomeLine(text: string) | BubbleLine(text: string, alignRight: bool)

  function Bubble(m: ChatMessage): Line {
    BubbleLine(m.text, m.role == Customer)
  }

  /** The transcript area: the welcome message exactly when there are no
      messages, otherwise one bubble per message in order, the customer's on
      the right. */
  function Transcript(messages: seq<ChatMessage>, welcome: string): (lines: seq<Line>)
    ensures (exists i :: 0 <= i < |lines| && lines[i].WelcomeLine?) <==> messages == []
    ensures messages == [] ==> lines == [WelcomeLine(welcome)]
    ensures messages != [] ==>
      |lines| == |messages|
      && forall i :: 0 <= i < |lines| ==>
           lines[i].BubbleLine? && lines[i].text == messages[i].text
           && (lines[i].alignRight <==> messages[i].role == Customer)
  {
    if messages == [] then
      var welcomeOnly := [WelcomeLine(welcome)];
      assert welcomeOnly[0].WelcomeLine?;
      welcomeOnly
    else seq(|messages|, i requires 0 <= i < |messages| => Bubble(messages[i]))
  }

  /** One mounted widget. */
  class ChatWidget {
    const settings: WidgetSettings
    const sessionId: string
    var messages: seq<ChatMessage>
    var input: string
    var loading: bool

    /** Mounting resolves the session id against local storage at time `now`. */
    constructor (settings: WidgetSettings, store: LocalStorage, now: nat)
      modifies store
      ensures this.settings == settings
      ensures var lookup := GetOrCreateSessionId(old(store.items), settings.merchantId, now);
        sessionId == lookup.sessionId && store.items == lookup.storage
      ensures messages == [] && input == "" && !loading
    {
      this.settings := settings;
      var key := SessionKey(settings.merchantId);
      if key in store.items && store.items[key] != "" {
        sessionId := store.items[key];
      } else {
        var s := NatToString(now);
        store.items := store.items[key := s];
        sessionId := s;
      }
      messages := [];
      input := "";
      loading := false;
    }

    /** The history fetch for the session starts. */
    method StartHistoryFetch()
      modifies this
      ensures loading
      ensures messages == old(messages) && input == old(input)
    {
      loading := true;
    }

    /** The fetch resolved: its list replaces the whole transcript (an empty
        one for a null or undefined result). */
    method HistoryFetched(fetched: Option<seq<ChatMessage>>)
      modifies this
      ensures messages == fetched.GetOr([])
      ensures !loading && input == old(input)
    {
      messages := fetched.GetOr([]);
      loading := false;
    }

    /** The fetch failed: only the loading flag is cleared. */
    method HistoryFetchFailed()
      modifies this
      ensures !loading
      ensures messages == old(messages) && input == old(input)
    {
      loading := false;
    }

    /** A message pushed on the live socket goes to the end of the transcript. */
    method LiveMessage(msg: ChatMessage)
      modifies this
      ensures messages == old(messages) + [msg]
      ensures loading == old(loading) && input == old(input)
    {
      messages := messages + [msg];
    }

    method EditInput(value: string)
      modifies this
      ensures input == value
      ensures messages == old(messages) && loading == old(loading)
    {
      input := value;
    }

    /** Submitting the form, by the send button or by Enter in the field.
        Both go through the submit button, so while it is disabled (the
        history loading, or a blank input) the form is not submitted and
        nothing changes. Otherwise the input is cleared at once and one
        request is sent. The transcript is not touched: the message shows up
        only when the server echoes it or the history is fetched again. */
    method HandleSend() returns (request: Option<SendRequest>)
      modifies this
      ensures request.Some? <==> !SendButtonDisabled(old(loading), old(input))
      ensures request.Some? ==> request == SendRequestFor(settings.merchantId, sessionId, old(input))
      ensures input == if request.Some? then "" else old(input)
      ensures messages == old(messages) && loading == old(loading)
    {
      var typed := input;
      if SendButtonDisabled(loading, typed) {
        return None;
      }
      request := SendRequestFor(settings.merchantId, sessionId, typed);
      input := "";
      assert typed == old(input);
    }
  }
}
