/**
 * The per-ticket sales dialogue of the `messageCreate` handler: one record per
 * ticket channel, driven from asking for an amount, to asking how the
 * customer pays, to a quote after which the AI chats.
 */
module Tickets {

  import opened Options
  import opened Numerals
  import opened Text
  import opened Pricing
  import opened AmountParsing
  import opened Gamepasses

  type ChannelId = string
  type UserId = string

  datatype TicketStep = AskAmount | AskMethod | Done

  datatype PaymentMethod = Robux | Usd

  datatype Role = User | Assistant

  /** One message of the AI conversation kept for a ticket. */
  datatype ChatEntry = ChatEntry(role: Role, content: string)

  /** The record kept per ticket channel. */
  datatype Ticket = Ticket(
    userId: UserId,
    step: TicketStep,
    amount: Option<nat>,
    payment: Option<PaymentMethod>,
    memory: seq<ChatEntry>)
  {
    /**
     * What the dialogue keeps true of every ticket: an amount between 1 and
     * the maximum exactly once it has been asked for, a payment method exactly
     * once quoted, and an AI conversation only after the quote.
     */
    predicate Valid() {
      && (step == AskAmount <==> amount.None?)
      && (amount.Some? ==> 1 <= amount.value <= MaxMoney)
      && (step == Done <==> payment.Some?)
      && (step != Done ==> memory == [])
    }
  }

  /** The record `resetTicket` stores: owned by `userId`, waiting for an amount. */
  function FreshTicket(userId: UserId): (t: Ticket)
    ensures t.Valid() && t.step == AskAmount && t.userId == userId
  {
    Ticket(userId, AskAmount, None, None, [])
  }

  /** What the bot answers, before it is written out as text. */
  datatype Reply =
    | Silent
    | AskForAmount
    | AmountExample
    | AskForMethod
    | RobuxTotal(robux: nat, passes: seq<Gamepass>)
    | CashTotal(cents: nat)
    | MethodExample
    | AiUnavailable
    | AiAnswer(text: string)

  /** The text the handler compares: the message trimmed and lower-cased. */
  function Command(content: string): (r: string)
    ensures |r| <= |content|
    ensures r == [] || (!IsTrimmable(r[0]) && !IsTrimmable(r[|r| - 1]))
    ensures forall i :: 0 <= i < |r| ==> !('A' <= r[i] <= 'Z')
  {
    var trimmed := Trim(content);
    LowerKeepsEnds(trimmed);
    ToLower(trimmed)
  }

  function Min(a: nat, b: nat): (m: nat)
    ensures m <= a && m <= b && (m == a || m == b)
  {
    if a <= b then a else b
  }

  /**
   * The AI memory after the customer's message is pushed: when it then holds
   * more than ten entries the oldest one is shifted out.
   */
  function Window(memory: seq<ChatEntry>): (r: seq<ChatEntry>)
    ensures |r| == if |memory| > 10 then |memory| - 1 else |memory|
    ensures r == memory[|memory| - |r|..]
  {
    if |memory| > 10 then memory[1..] else memory
  }

  /** The AI memory after one answered turn: the customer's message, then the answer. */
  function AiTurn(memory: seq<ChatEntry>, content: string, answer: string): (r: seq<ChatEntry>)
    ensures |r| == (if |memory| + 1 > 10 then |memory| else |memory| + 1) + 1
    ensures r[|r| - 2] == ChatEntry(User, content) && r[|r| - 1] == ChatEntry(Assistant, answer)
    ensures r[..|r| - 2] == memory[|memory| + 2 - |r|..]
  {
    var pushed := memory + [ChatEntry(User, content)];
    var kept := Window(pushed);
    var r := kept + [ChatEntry(Assistant, answer)];
    assert r[..|r| - 2] == kept[..|kept| - 1];
    assert kept[..|kept| - 1] == memory[|memory| + 2 - |r|..];
    r
  }

  /** An answer in the AskAmount step: a nonzero amount, capped at the maximum, moves on. */
  function AmountStep(t: Ticket, txt: string): (r: (Ticket, Reply))
    requires t.Valid() && t.step == AskAmount
    ensures r.0.Valid() && r.0.userId == t.userId
  {
    var amt := ParseAmount(txt);
    if amt.None? || amt.value == 0 then (t, AmountExample)
    else (t.(amount := Some(Min(amt.value, MaxMoney)), step := AskMethod), AskForMethod)
  }

  /** An answer in the AskMethod step: "robux" is looked for first, then "real" or "cash". */
  function MethodStep(t: Ticket, txt: string): (r: (Ticket, Reply))
    requires t.Valid() && t.step == AskMethod
    ensures r.0.Valid() && r.0.userId == t.userId
  {
    if Contains(txt, "robux") then
      var robux := ClosestRobux(t.amount.value);
      (t.(step := Done, payment := Some(Robux)), RobuxTotal(robux, Greedy(robux, SortedCatalogue())))
    else if Contains(txt, "real") || Contains(txt, "cash") then
      (t.(step := Done, payment := Some(Usd)), CashTotal(CashCents(t.amount.value)))
    else (t, MethodExample)
  }

  /** A message after the quote: one turn of the AI conversation. */
  function ChatStep(t: Ticket, content: string, aiAvailable: bool, aiReply: Option<string>): (r: (Ticket, Reply))
    requires t.Valid() && t.step == Done
    ensures r.0.Valid() && r.0.userId == t.userId
  {
    if !aiAvailable then (t, AiUnavailable)
    else match aiReply
      case None => (t.(memory := Window(t.memory + [ChatEntry(User, content)])), Silent)
      case Some(answer) => (t.(memory := AiTurn(t.memory, content, answer)), AiAnswer(answer))
  }

  /**
   * One message from the ticket's owner, as the handler processes it once the
   * ticket exists: the new record and the reply. `aiAvailable` says whether
   * the AI client was set up; `aiReply` is its answer, or none when the call
   * failed (the failure is logged and nothing is sent).
   */
  function Advance(t: Ticket, content: string, aiAvailable: bool, aiReply: Option<string>): (r: (Ticket, Reply))
    requires t.Valid()
    ensures r.0.Valid() && r.0.userId == t.userId
  {
    var txt := Command(content);
    if txt == "restart" then (FreshTicket(t.userId), AskForAmount)
    else match t.step
      case AskAmount => AmountStep(t, txt)
      case AskMethod => MethodStep(t, txt)
      case Done => ChatStep(t, content, aiAvailable, aiReply)
  }

  /** The combined length of some strings. */
  function TotalLength(items: seq<string>): nat {
    if items == [] then 0 else |items[0]| + TotalLength(items[1..])
  }

  /**
   * `items` separated by `sep`, as `Array.prototype.join` writes them: the
   * items' characters plus one separator between each two, starting with the
   * first item.
   */
  function Join(items: seq<string>, sep: string): (r: string)
    ensures items == [] ==> r == ""
    ensures items != [] ==> |r| == TotalLength(items) + |sep| * (|items| - 1)
    ensures items != [] ==> r[..|items[0]|] == items[0]
  {
    if |items| == 0 then ""
    else if |items| == 1 then items[0]
    else items[0] + sep + Join(items[1..], sep)
  }

  /** A whole number of cents as dollars with two decimals. */
  function DollarsText(cents: nat): (s: string)
    ensures |s| >= 4 && s[|s| - 3] == '.'
    ensures AllDigits(s[..|s| - 3]) && AllDigits(s[|s| - 2..])
  {
    Decimal(cents / 100) + "." + [DigitChar(cents % 100 / 10), DigitChar(cents % 10)]
  }

  /** The message the bot sends for a reply; none for `Silent`. */
  function Render(reply: Reply, cashAppLink: string, payPalLink: string): (text: Option<string>)
    ensures text.None? <==> reply == Silent
    ensures reply.AiAnswer? ==> text == Some(reply.text)
  {
    match reply
    case Silent => None
    case AskForAmount => Some("How much game money do you want to buy?")
    case AmountExample => Some("Say an amount like `700k`, `1m`, or `max money`.")
    case AskForMethod => Some("Paying with **real money** or **robux**?")
    case RobuxTotal(robux, passes) =>
      Some("Total: **" + Decimal(robux) + " Robux**\n\n" + Join(seq(|passes|, i requires 0 <= i < |passes| => LineText(passes[i])), "\n"))
    case CashTotal(cents) =>
      Some("Total: **$" + DollarsText(cents) + "**\nCash App: " + cashAppLink + "\nPayPal: " + payPalLink)
    case MethodExample => Some("Say **real money** or **robux**.")
    case AiUnavailable => Some("AI temporarily unavailable.")
    case AiAnswer(answer) => Some(answer)
  }

  lemma DollarsTextValue(cents: nat)
    ensures var s := DollarsText(cents);
      DigitsValue(s[..|s| - 3]) * 100 + DigitsValue(s[|s| - 2..]) == cents
  {
    var s := DollarsText(cents);
    var whole := Decimal(cents / 100);
    var tail := [DigitChar(cents % 100 / 10), DigitChar(cents % 10)];
    assert s == whole + "." + tail;
    assert s[..|s| - 3] == whole;
    assert s[|s| - 2..] == tail;
    DecimalRoundTrip(cents / 100);
    assert tail[..1] == [DigitChar(cents % 100 / 10)];
    assert DigitsValue(tail) == DigitsValue(tail[..1]) * 10 + cents % 10;
  }

  /** Without `restart`, a message is handled by the function of the ticket's step. */
  lemma AdvanceByStep(t: Ticket, content: string, aiAvailable: bool, aiReply: Option<string>)
    requires t.Valid() && Command(content) != "restart"
    ensures t.step == AskAmount ==> Advance(t, content, aiAvailable, aiReply) == AmountStep(t, Command(content))
    ensures t.step == AskMethod ==> Advance(t, content, aiAvailable, aiReply) == MethodStep(t, Command(content))
    ensures t.step == Done ==> Advance(t, content, aiAvailable, aiReply) == ChatStep(t, content, aiAvailable, aiReply)
  {
  }

  /** From any step, the owner's `restart` gives a fresh ticket with the same owner. */
  lemma RestartResets(t: Ticket, content: string, aiAvailable: bool, aiReply: Option<string>)
    requires t.Valid() && Command(content) == "restart"
    ensures var r := Advance(t, content, aiAvailable, aiReply);
      && r.0.userId == t.userId && r.0.step == AskAmount
      && r.0.amount == None && r.0.payment == None && r.0.memory == []
      && r.1 == AskForAmount
  {
  }

  /**
   * AskAmount, for the command text `txt`: the ticket moves on exactly when
   * the text parses to a nonzero amount, and then keeps that amount capped at
   * the maximum; otherwise the example is shown and nothing changes.
   */
  lemma AmountStepAdvances(t: Ticket, txt: string)
    requires t.Valid() && t.step == AskAmount
    ensures var r := AmountStep(t, txt);
      var amt := ParseAmount(txt);
      && r.0.step != Done
      && (r.0.step == AskMethod <==> amt.Some? && amt.value != 0)
      && (r.0.step == AskMethod ==> r.0.amount == Some(Min(amt.value, MaxMoney)) && r.1 == AskForMethod)
      && (r.0.step != AskMethod ==> r.0 == t && r.1 == AmountExample)
  {
  }

  /**
   * AskMethod: text mentioning "robux" quotes Robux even when it also
   * mentions "cash" or "real"; otherwise "real" or "cash" quotes cash;
   * otherwise nothing changes and the choice is asked again. The amount is
   * kept and the ticket never goes back to AskAmount.
   */
  lemma MethodStepChooses(t: Ticket, txt: string)
    requires t.Valid() && t.step == AskMethod
    ensures var r := MethodStep(t, txt);
      && r.0.step != AskAmount && r.0.amount == t.amount
      && (Contains(txt, "robux") ==> r.0.step == Done && r.0.payment == Some(Robux))
      && (!Contains(txt, "robux") && (Contains(txt, "real") || Contains(txt, "cash")) ==>
            r.0.step == Done && r.0.payment == Some(Usd))
      && (!Contains(txt, "robux") && !Contains(txt, "real") && !Contains(txt, "cash") ==>
            r.0 == t && r.1 == MethodExample)
  {
  }

  /**
   * A Robux quote is a multiple of 50 within 25 of the exact price, and its
   * gamepasses, largest first, add up to exactly the quoted total.
   */
  lemma RobuxQuoteIsExact(t: Ticket, txt: string)
    requires t.Valid() && t.step == AskMethod && Contains(txt, "robux")
    ensures var r := MethodStep(t, txt);
      && r.1.RobuxTotal?
      && r.1.robux % 50 == 0
      && ExactRobux(t.amount.value) - 25.0 < r.1.robux as real <= ExactRobux(t.amount.value) + 25.0
      && SumRobux(r.1.passes) == r.1.robux
      && NonIncreasing(r.1.passes)
      && (forall x :: x in r.1.passes ==> x in Catalogue)
  {
    var robux := ClosestRobux(t.amount.value);
    var sorted := SortedCatalogue();
    GreedyBreakdown(robux, sorted);
  }

  /** A cash quote is the amount at 1.50 USD per 100k, rounded to the cent. */
  lemma CashQuoteIsExact(t: Ticket, txt: string)
    requires t.Valid() && t.step == AskMethod
    requires !Contains(txt, "robux") && (Contains(txt, "real") || Contains(txt, "cash"))
    ensures var r := MethodStep(t, txt);
      && r.1.CashTotal?
      && (r.1.cents as real) - 0.5 <= (3 * t.amount.value) as real / 2000.0 < (r.1.cents as real) + 0.5
  {
  }

  /**
   * One message after the quote: the ticket stays in Done with its amount and
   * payment method. With the AI unavailable nothing changes; an answered turn
   * takes the memory from L entries to (L + 1 > 10 ? L : L + 1) + 1, ending
   * with the message and its answer; a failed call keeps only the message.
   */
  lemma ChatTurnLength(t: Ticket, content: string, aiAvailable: bool, aiReply: Option<string>)
    requires t.Valid() && t.step == Done
    ensures var r := ChatStep(t, content, aiAvailable, aiReply);
      var n := |t.memory|;
      && r.0.step == Done && r.0.amount == t.amount && r.0.payment == t.payment
      && (!aiAvailable ==> r.0 == t && r.1 == AiUnavailable)
      && (aiAvailable && aiReply.Some? ==>
            r.0.memory == AiTurn(t.memory, content, aiReply.value)
            && |r.0.memory| == (if n + 1 > 10 then n else n + 1) + 1
            && r.0.memory[|r.0.memory| - 1] == ChatEntry(Assistant, aiReply.value)
            && r.0.memory[|r.0.memory| - 2] == ChatEntry(User, content))
      && (aiAvailable && aiReply.None? ==>
            |r.0.memory| == (if n + 1 > 10 then n else n + 1)
            && r.0.memory[|r.0.memory| - 1] == ChatEntry(User, content)
            && r.1 == Silent)
  {
  }

  /** The AI memory after a series of answered turns, each a message and its answer. */
  function Conversation(memory: seq<ChatEntry>, turns: seq<(string, string)>): seq<ChatEntry>
    decreases |turns|
  {
    if turns == [] then memory
    else
      var last := turns[|turns| - 1];
      AiTurn(Conversation(memory, turns[..|turns| - 1]), last.0, last.1)
  }

  /**
   * The memory is not capped at ten: from the empty memory of a fresh quote,
   * n answered turns leave 2n entries while n <= 5 and n + 5 after that.
   */
  lemma {:induction false} ConversationLength(turns: seq<(string, string)>)
    ensures |Conversation([], turns)| == if |turns| <= 5 then 2 * |turns| else |turns| + 5
    decreases |turns|
  {
    if turns != [] {
      ConversationLength(turns[..|turns| - 1]);
    }
  }

  /** Answered turns from Done follow `Conversation`, so the memory outgrows any bound. */
  lemma {:induction false} MemoryUnbounded(bound: nat)
    ensures exists turns :: |Conversation([], turns)| > bound
  {
    var turns := seq(bound + 1, i => ("hi", "hello"));
    ConversationLength(turns);
  }

  /** The ticket registry of the bot: the `tickets` map and the message handler. */
  class TicketDesk {
    var tickets: map<ChannelId, Ticket>
    /** The payment links read from the configuration at start-up. */
    const cashAppLink: string
    const payPalLink: string

    ghost predicate Valid()
      reads this
    {
      forall c :: c in tickets ==> tickets[c].Valid()
    }

    constructor (cashAppLink: string, payPalLink: string)
      ensures Valid() && tickets == map[]
      ensures this.cashAppLink == cashAppLink && this.payPalLink == payPalLink
    {
      this.cashAppLink := cashAppLink;
      this.payPalLink := payPalLink;
      tickets := map[];
    }

    /** `resetTicket`: a fresh record for the channel, replacing any earlier one. */
    method ResetTicket(channelId: ChannelId, userId: UserId)
      requires Valid()
      modifies this
      ensures Valid()
      ensures tickets == old(tickets)[channelId := FreshTicket(userId)]
    {
      tickets := tickets[channelId := FreshTicket(userId)];
    }

    /**
     * The `messageCreate` handler for one message: bots, channels outside the
     * ticket category and senders other than the ticket's owner are ignored;
     * the first message of a channel opens its ticket and asks for the amount;
     * every other message moves the ticket on as `Advance` says.
     */
    method Step(channelId: ChannelId, authorId: UserId, isBot: bool, inTicketCategory: bool,
                content: string, aiAvailable: bool, aiReply: Option<string>)
      returns (reply: Reply, text: Option<string>)
      requires Valid()
      modifies this
      ensures Valid()
      ensures isBot || !inTicketCategory ==> tickets == old(tickets) && reply == Silent
      ensures !isBot && inTicketCategory && channelId !in old(tickets) ==>
        tickets == old(tickets)[channelId := FreshTicket(authorId)] && reply == AskForAmount
      ensures !isBot && inTicketCategory && channelId in old(tickets) && authorId != old(tickets[channelId].userId) ==>
        tickets == old(tickets) && reply == Silent
      ensures !isBot && inTicketCategory && channelId in old(tickets) && authorId == old(tickets[channelId].userId) ==>
        var r := Advance(old(tickets[channelId]), content, aiAvailable, aiReply);
        tickets == old(tickets)[channelId := r.0] && reply == r.1
      ensures text == Render(reply, cashAppLink, payPalLink)
    {
      if isBot || !inTicketCategory {
        reply := Silent;
      } else if channelId !in tickets {
        ResetTicket(channelId, authorId);
        reply := AskForAmount;
      } else if authorId != tickets[channelId].userId {
        reply := Silent;
      } else {
        reply := Respond(channelId, tickets[channelId], content, aiAvailable, aiReply);
      }
      text := Render(reply, cashAppLink, payPalLink);
    }

    /** A message from the ticket's owner: `restart`, or the handling of the ticket's step. */
    method Respond(channelId: ChannelId, t: Ticket, content: string, aiAvailable: bool, aiReply: Option<string>)
      returns (reply: Reply)
      requires Valid() && channelId in tickets && tickets[channelId] == t
      modifies this
      ensures var r := Advance(t, content, aiAvailable, aiReply);
        tickets == old(tickets)[channelId := r.0] && reply == r.1
    {
      var txt := Command(content);
      if txt == "restart" {
        ResetTicket(channelId, t.userId);
        reply := AskForAmount;
      } else {
        AdvanceByStep(t, content, aiAvailable, aiReply);
        if t.step == AskAmount {
          reply := AnswerAmount(channelId, t, txt);
        } else if t.step == AskMethod {
          reply := AnswerMethod(channelId, t, txt);
        } else {
          reply := Chat(channelId, t, content, aiAvailable, aiReply);
        }
      }
    }

    method AnswerAmount(channelId: ChannelId, t: Ticket, txt: string) returns (reply: Reply)
      requires Valid() && channelId in tickets && tickets[channelId] == t && t.step == AskAmount
      modifies this
      ensures var r := AmountStep(t, txt);
        tickets == old(tickets)[channelId := r.0] && reply == r.1
    {
      var amt := ParseAmount(txt);
      if amt.None? || amt.value == 0 {
        return AmountExample;
      }
      var t := t.(amount := Some(Min(amt.value, MaxMoney)));
      t := t.(step := AskMethod);
      tickets := tickets[channelId := t];
      reply := AskForMethod;
    }

    method AnswerMethod(channelId: ChannelId, t: Ticket, txt: string) returns (reply: Reply)
      requires Valid() && channelId in tickets && tickets[channelId] == t && t.step == AskMethod
      modifies this
      ensures var r := MethodStep(t, txt);
        tickets == old(tickets)[channelId := r.0] && reply == r.1
    {
      if Contains(txt, "robux") {
        var robux := ClosestRobux(t.amount.value);
        var lines := BuildGamepasses(robux);
        var t := t.(step := Done);
        t := t.(payment := Some(Robux));
        tickets := tickets[channelId := t];
        return RobuxTotal(robux, lines);
      }
      if Contains(txt, "real") || Contains(txt, "cash") {
        var cents := CashCents(t.amount.value);
        var t := t.(step := Done);
        t := t.(payment := Some(Usd));
        tickets := tickets[channelId := t];
        return CashTotal(cents);
      }
      reply := MethodExample;
    }

    method Chat(channelId: ChannelId, t: Ticket, content: string, aiAvailable: bool, aiReply: Option<string>)
      returns (reply: Reply)
      requires Valid() && channelId in tickets && tickets[channelId] == t && t.step == Done
      modifies this
      ensures var r := ChatStep(t, content, aiAvailable, aiReply);
        tickets == old(tickets)[channelId := r.0] && reply == r.1
    {
      if !aiAvailable {
        return AiUnavailable;
      }
      var memory := t.memory + [ChatEntry(User, content)];
      if |memory| > 10 {
        memory := memory[1..];
      }
      var t := t.(memory := memory);
      tickets := tickets[channelId := t];
      if aiReply.None? {
        return Silent;
      }
      var answer := aiReply.value;
      t := t.(memory := t.memory + [ChatEntry(Assistant, answer)]);
      tickets := tickets[channelId := t];
      reply := AiAnswer(answer);
    }
  }
}
