/**
  The persisted chat history (`hooks/useChatHistory.ts`): a list of messages that only grows by
  appending, seeded (and re-seeded on clearing) with two greeting messages from the assistant.
  Message timestamps are instants in milliseconds; their ISO rendering is left to the caller.
*/
module ChatHistory {
  import opened Wrappers
  import opened Text

  datatype Role = User | Model

  /** The grounding metadata a place search attaches to its reply, carried through untouched. */
  datatype Grounding = Grounding(sources: seq<string>)

  datatype ChatMessage = ChatMessage(
    id: string,
    role: Role,
    text: string,
    timestamp: int,
    isAnalysis: bool,
    grounding: Option<Grounding>)

  const FirstGreeting := "Hello! I'm Aura. I can understand many Indian languages like Kannada, Hindi, and Tamil. How can I support you today?"
  const SecondGreeting := "Hi there! How are you doing today? I'm here to help you keep an eye on your well-being."

  function DigitChar(d: nat): (c: char)
    requires d < 10
    ensures IsDigit(c)
  {
    "0123456789"[d]
  }

  /** The decimal numeral of `n`, as a template literal renders a non-negative integer. */
  function Decimal(n: nat): (r: string)
    ensures |r| >= 1
    ensures n >= 10 ==> |r| >= 2
    ensures forall i :: 0 <= i < |r| ==> IsDigit(r[i])
  {
    if n < 10 then [DigitChar(n)] else Decimal(n / 10) + [DigitChar(n % 10)]
  }

  /** Different numbers have different numerals. */
  lemma {:induction false} DecimalInjective(a: nat, b: nat)
    requires Decimal(a) == Decimal(b)
    ensures a == b
  {
    var ra, rb := Decimal(a), Decimal(b);
    if a >= 10 && b >= 10 {
      assert ra[..|ra| - 1] == Decimal(a / 10);
      assert rb[..|rb| - 1] == Decimal(b / 10);
      DecimalInjective(a / 10, b / 10);
      assert "0123456789"[a % 10] == ra[|ra| - 1] == "0123456789"[b % 10];
    } else if a < 10 && b < 10 {
      assert "0123456789"[a] == "0123456789"[b];
    }
  }

  /** The two greeting messages stamped with the current time `now` (`Date.now()`). */
  function InitialMessages(now: nat): (r: seq<ChatMessage>)
    ensures |r| == 2
    ensures r[0].role == Model && r[1].role == Model
    ensures r[0].timestamp == now && r[1].timestamp == now + 1000
    ensures r[0].id != r[1].id
  {
    var m1 := ChatMessage("init-1-" + Decimal(now), Model, FirstGreeting, now, false, None);
    var m2 := ChatMessage("init-2-" + Decimal(now), Model, SecondGreeting, now + 1000, false, None);
    assert m1.id[5] != m2.id[5];
    [m1, m2]
  }

  /** Histories seeded at different instants share no greeting id. */
  lemma InitialIdsFresh(now1: nat, now2: nat)
    requires now1 != now2
    ensures forall i, j :: 0 <= i < 2 && 0 <= j < 2 ==> InitialMessages(now1)[i].id != InitialMessages(now2)[j].id
  {
    forall i, j | 0 <= i < 2 && 0 <= j < 2
      ensures InitialMessages(now1)[i].id != InitialMessages(now2)[j].id
    {
      var a, b := InitialMessages(now1)[i].id, InitialMessages(now2)[j].id;
      if a == b {
        assert a[7..] == Decimal(now1) && b[7..] == Decimal(now2);
        DecimalInjective(now1, now2);
      }
    }
  }

  /** `addMessage`: appends at the end, leaving every earlier message where it was. */
  function AddMessage(history: seq<ChatMessage>, message: ChatMessage): (r: seq<ChatMessage>)
    ensures |r| == |history| + 1
    ensures r[..|history|] == history && r[|history|] == message
  {
    history + [message]
  }

  /** Several `addMessage` calls in a row. */
  function AddMessages(history: seq<ChatMessage>, messages: seq<ChatMessage>): seq<ChatMessage>
    decreases messages
  {
    if messages == [] then history else AddMessages(AddMessage(history, messages[0]), messages[1..])
  }

  /** Any number of appends keeps the history as a prefix, so no message is ever lost or reordered. */
  lemma {:induction false} AddMessagesAppendOnly(history: seq<ChatMessage>, messages: seq<ChatMessage>)
    ensures AddMessages(history, messages) == history + messages
    decreases messages
  {
    if messages != [] {
      AddMessagesAppendOnly(history + [messages[0]], messages[1..]);
      assert history + [messages[0]] + messages[1..] == history + messages;
    }
  }

  /**
    `clearHistory`: the old history is discarded whatever it held, and two fresh greetings from the
    model replace it, stamped with the current time and one second later: the same pair a new
    history is seeded with.
  */
  function ClearHistory(history: seq<ChatMessage>, now: nat): (r: seq<ChatMessage>)
    ensures |r| == 2 && r[0].role == Model && r[1].role == Model
    ensures r[0].text == FirstGreeting && r[1].text == SecondGreeting
    ensures r[0].timestamp == now && r[1].timestamp == now + 1000
    ensures r[0].id != r[1].id
    ensures r == InitialMessages(now)
  {
    InitialMessages(now)
  }

  /** Clearing a history seeded at another instant gives messages whose ids are all new. */
  lemma ClearedIdsFresh(seeded: nat, now: nat)
    requires seeded != now
    ensures var history, r := InitialMessages(seeded), ClearHistory(InitialMessages(seeded), now);
      forall i, j :: 0 <= i < |r| && 0 <= j < |history| ==> r[i].id != history[j].id
  {
    InitialIdsFresh(now, seeded);
  }
}
