# Game-money ticket bot: a verified model of its sales dialogue

The bot runs inside Discord ticket channels and sells in-game money. A
customer pays either in cash (Cash App or PayPal) or in Robux, by buying a set
of gamepasses. This project models the bot's sales logic in Dafny and proves
its properties. The logic lives in `index.js`:

- **Amount parsing** (`amount_parsing.dfy`, module `AmountParsing`).
  `parseAmount` lower-cases the text. If it contains "max", it returns the
  maximum of 1 750 000. Otherwise it removes commas and reads the first
  `digits[.digits][k|m]` token, then rounds half up. The token's value is kept
  as an exact rational: the whole part plus the fraction digits, times 1 000
  or 1 000 000. The regular-expression match is written as a function,
  `FirstToken`. Beside it sits a declarative description, `TokenAt`: a maximal
  digit run, an optional `.digits`, an optional suffix. Lemmas tie the two
  together.
- **Pricing** (`pricing.dfy`, module `Pricing`).
  - The Robux quote rounds `g * 150 / 100000` to the nearest multiple of 50.
    A lemma shows it equals `50 * ((3g + 50000) / 100000)` in integer arithmetic.
  - The cash quote is `g * 1.5 / 100000` dollars. It is shown to the cent,
    which is `3g / 2000` cents rounded.
- **Gamepass breakdown** (`gamepasses.dfy`, module `Gamepasses`).
  - The catalogue holds 12 gamepasses. The breakdown copies it and sorts the
    copy largest first; the sort is modelled as a stable insertion sort.
  - It then takes each gamepass as often as it still fits.
  - The loop is an imperative method. It is proved equal to a recursive
    specification, `Greedy`.
  - Proved about `Greedy`:
    - the gamepasses come out largest first;
    - the amount left over is `total % 50`;
    - so every Robux quote breaks down exactly.
- **Tickets** (`tickets.dfy`, module `Tickets`). The `TicketDesk` class holds
  the `tickets` map from channel to ticket record.
  - `Step` is the message handler. Bots, channels outside the ticket category
    and senders other than the ticket's owner are ignored. The first message
    in a channel opens its ticket.
  - The pure function `Advance` describes every later message from the owner.
    It covers `restart`, the amount step, the method step and the AI chat
    after the quote. `Step`'s contract is stated in terms of `Advance`.
  - Every ticket satisfies `Ticket.Valid`, and `Step` preserves it:
    - an amount between 1 and 1 750 000 is present exactly when the step is
      past AskAmount;
    - a payment method is present exactly in Done;
    - the AI memory is empty before Done.

Helper modules:

- `Numerals` covers decimal digits, the decimal text of a number and
  `Math.round` on exact values.
- `Text` covers lower-casing, trimming with the ECMAScript whitespace set, and
  substring search.
- `Options` defines the `Option` type.

Behaviour of the code worth knowing:

- only the exact word `restart` resets a ticket;
- once a ticket is in Done it never quotes again, and every message there goes
  to the AI;
- only the first number in a message counts;
- a Robux quote of 0 is possible for amounts below 16 667 (`ClosestRobuxZero`);
- the AI memory grows without limit: each answered turn pushes two entries and
  shifts at most one (`ConversationLength`).

## Model

| member | source | states |
|---|---|---|
| `Pricing.ClosestRobux` | index.js:83-87 | The Robux quote is a multiple of 50 within 25 of the exact price `g * 150 / 100000`. |
| `Pricing.ClosestRobuxIntegerForm` | index.js:83-87 | The quote equals `50 * ((3g + 50000) / 100000)` in integer division. |
| `Pricing.ClosestRobuxZero` | index.js:83-87 | The quote is 0 exactly when the amount is below 16 667. |
| `Pricing.ClosestRobuxMonotone` | index.js:83-87 | A larger amount never gets a smaller Robux quote. |
| `Pricing.ExactRobux` | index.js:41 | The exact Robux price is `3g / 2000` (150 Robux per 100k). |
| `Pricing.CashUsd` | index.js:40 | The exact cash price is `3g / 200000` dollars (1.50 USD per 100k). |
| `Pricing.CashCents` | index.js:168 | The cash quote is the exact price rounded to the nearest cent, halves up. |
| `Pricing.RobuxQuoteFor700k` | index.js:83-87 | 700 000 game money is quoted at 1 050 Robux. |
| `Pricing.CashQuoteForMax` | index.js:168 | The maximum amount costs exactly 26.25 USD, i.e. 2 625 cents. |
| `Numerals.Round` | index.js:80 | `Math.round` on an exact value gives the integer within a half below and strictly less than a half above. |
| `Numerals.DecimalRoundTrip` | index.js:96 | The decimal text of a number reads back as that number. |
| `Numerals.DigitsValueBelow` | index.js:76 | A run of k digits is worth less than 10^k. |
| `Text.ToLower` | index.js:70 | Lower-casing keeps the length, maps each character on its own, keeps digits digits and leaves no A-Z. |
| `Text.ToLowerIdempotent` | index.js:138 | Lower-casing twice is the same as once, so `parseAmount` lower-casing the already lower-cased command changes nothing. |
| `Text.Trim` | index.js:138 | `trim` removes exactly the leading and trailing whitespace: what remains is a slice that starts and ends with a non-whitespace character. |
| `Text.TrimStart` | index.js:138 | Only leading whitespace is dropped, and the result starts with a non-whitespace character. |
| `Text.TrimEnd` | index.js:138 | Only trailing whitespace is dropped, and the result ends with a non-whitespace character. |
| `Text.Contains` | index.js:71 | `includes` never finds a word longer than the text, and always finds the empty word; `ContainsAt` characterises it exactly. |
| `Text.ContainsAt` | index.js:71 | `includes` holds exactly when the word occurs at some position. |
| `AmountParsing.StripCommas` | index.js:73 | After removing commas the text holds exactly the characters it held other than the comma, and is no longer. |
| `AmountParsing.FirstDigitIndex` | index.js:73 | The regular expression starts at the first digit of the text; no digit precedes it. |
| `AmountParsing.DigitRunLength` | index.js:73 | `\d+` takes the maximal run of digits. |
| `AmountParsing.WholeAt` | index.js:73 | The integer part is a nonempty maximal digit run at the match position. |
| `AmountParsing.FractionAt` | index.js:73 | `(\.\d+)?` takes a dot and a maximal digit run when one follows, and nothing otherwise. |
| `AmountParsing.FirstToken` | index.js:73-74 | There is no match exactly when the text has no digit. Otherwise the match is a well-formed token at the first digit. |
| `AmountParsing.DigitRunLengthOf` | index.js:73 | A maximal digit run is exactly as long as the computed run length. |
| `AmountParsing.MaximalDigitsUnique` | index.js:73 | At a given position there is only one maximal digit run. |
| `AmountParsing.TokenAtUnique` | index.js:73 | At a given position there is only one token, so the regular expression's match is determined. |
| `AmountParsing.TokenValue` | index.js:76-78 | `Number(m[1])` times the suffix multiplier, as an exact rational: never negative, and between the whole part times the multiplier and the next whole number times it. |
| `AmountParsing.ParseAmount` | index.js:69-81 | Text containing "max" gives 1 750 000. Otherwise there is no amount exactly when the text has no digit, and an amount is the first token's exact value rounded half up. |
| `AmountParsing.HasDigitNormalised` | index.js:73-74 | Lower-casing and removing commas neither add nor remove digits. |
| `AmountParsing.ParseAmountIsLeftmostToken` | index.js:73-80 | Any token found at the first digit of the normalised text decides the amount, as the rounded exact value. |
| `AmountParsing.NotContainedWithout` | index.js:71 | A word with a character the text lacks is not contained in it. |
| `AmountParsing.StripCommasNoComma` | index.js:73 | Text without commas is left unchanged. |
| `AmountParsing.ToLowerUnchanged` | index.js:70 | Text with no upper-case letter is left unchanged by lower-casing. |
| `AmountParsing.ParsesLeadingToken` | index.js:69-80 | Text without upper-case letters, commas or an `x` that starts with a token parses to that token's rounded value. |
| `AmountParsing.ParseAmountOfLowered` | index.js:70 | Parsing lower-cased text gives the same amount as parsing the text. |
| `AmountParsing.ParsesSuffixedAmount` | index.js:69-81 | "700K" parses to 700 000. |
| `AmountParsing.ParsesOnlyFirstNumber` | index.js:73-80 | "1m 750k" parses to 1 000 000: only the first number counts. |
| `AmountParsing.ParsesMax` | index.js:71 | "max money" parses to 1 750 000. |
| `AmountParsing.ParsesFraction` | index.js:73-80 | "2.5k" parses to 2 500. |
| `AmountParsing.ParsesSmallFractionToZero` | index.js:76-80 | "0.4" parses to 0, which the ticket dialogue then rejects. |
| `AmountParsing.NoDigitNoAmount` | index.js:74 | "hello" gives no amount. |
| `Gamepasses.CatalogueWholeUnits` | index.js:46-59 | Every gamepass is a positive multiple of 50, and the first one is worth exactly 50. |
| `Gamepasses.SortByRobuxDescending` | index.js:91 | The sort keeps the number of entries of its input; `SortSorted` proves the result is ordered and a permutation. |
| `Gamepasses.InsertPermutes` | index.js:91 | Inserting into a list adds exactly that element and nothing else. |
| `Gamepasses.InsertSorted` | index.js:91 | Inserting into a largest-first list keeps it largest first. |
| `Gamepasses.SortSorted` | index.js:91 | The sort leaves any list largest first and a permutation of the original. |
| `Gamepasses.LastIsSmallest` | index.js:91 | In a largest-first list the last element is the smallest. |
| `Gamepasses.SortedCopy` | index.js:91 | Sorting whole units whose first entry is 50 gives whole units, largest first, of the same number, ending with 50. |
| `Gamepasses.SortedCatalogue` | index.js:91 | The sorted copy holds exactly the catalogue's entries, links included, 12 of them, largest first, each a multiple of 50, and ends with 50. |
| `Gamepasses.Greedy` | index.js:94-99 | The gamepasses the loops take are all drawn from the list walked; `GreedyRemainder` and `GreedyOrdered` give the rest. |
| `Gamepasses.GreedyRemainder` | index.js:94-99 | The breakdown never exceeds the total. The amount left is smaller than the smallest gamepass and congruent to the total modulo 50. |
| `Gamepasses.GreedyOrdered` | index.js:94-99 | The breakdown of a largest-first list is largest first. |
| `Gamepasses.GreedyBreakdown` | index.js:89-101 | Over a sorted list ending in 50, the breakdown sums to `total - total % 50` and is largest first. It is empty exactly when the total is below 50. |
| `Gamepasses.TakeGreedily` | index.js:94-99 | The nested loops, which decrement `remaining` and push one gamepass at a time, produce exactly the greedy breakdown. |
| `Gamepasses.BuildGamepasses` | index.js:89-101 | The lines are the greedy breakdown of the sorted catalogue, each a catalogue gamepass. They sum to `total - total % 50`, come largest first, and are empty exactly when the total is below 50. |
| `Gamepasses.LineText` | index.js:96 | A line starts with the bullet, then the digits of the gamepass's size, which read back as that size, and ends with its link. |
| `Gamepasses.QuoteBreaksDownExactly` | index.js:156-157 | A multiple of 50, such as every Robux quote, breaks down with nothing left over. |
| `Tickets.FreshTicket` | index.js:107-115 | A fresh record belongs to the given user, waits for an amount, and satisfies the ticket invariant. |
| `Tickets.Command` | index.js:138 | The command text is no longer than the message, starts and ends with a non-whitespace character, and has no upper-case A-Z. |
| `Tickets.Min` | index.js:149 | `Math.min` gives the smaller of its two arguments. |
| `Tickets.Window` | index.js:186-187 | After the push, the memory drops exactly its oldest entry when it holds more than ten, and keeps its latest entries in order. |
| `Tickets.AiTurn` | index.js:186-195 | An answered turn leaves `(L + 1 > 10 ? L : L + 1) + 1` entries: the latest earlier entries in order, then the message, then the answer. |
| `Tickets.AmountStep` | index.js:145-152 | An answer to the amount question keeps the ticket invariant and the owner. |
| `Tickets.MethodStep` | index.js:154-177 | An answer to the payment question keeps the ticket invariant and the owner. |
| `Tickets.ChatStep` | index.js:182-197 | A message after the quote keeps the ticket invariant and the owner. |
| `Tickets.Advance` | index.js:138-197 | Any message from the owner keeps the ticket invariant (amount bounds, payment method exactly in Done, no memory before Done) and the owner. |
| `Tickets.Join` | index.js:163 | `join` yields the empty text for no lines; otherwise it starts with the first line and is as long as all the lines plus one separator between each two. |
| `Tickets.DollarsText` | index.js:168 | `toFixed(2)` of a whole number of cents is digits, a dot and exactly two digits. |
| `Tickets.DollarsTextValue` | index.js:168 | The dollars text reads back as the number of cents. |
| `Tickets.Render` | index.js:133-183 | Exactly the silent reply sends nothing. An AI answer is sent as it is. |
| `Tickets.AdvanceByStep` | index.js:145-197 | Any message other than `restart` is handled by the function of the ticket's current step. |
| `Tickets.RestartResets` | index.js:140-143 | From any step, `restart` gives AskAmount with no amount, no method and empty memory, keeps the owner, and asks for the amount. |
| `Tickets.AmountStepAdvances` | index.js:145-152 | AskAmount moves to AskMethod exactly when the amount parses to nonzero, and then stores `min(amount, 1 750 000)`. Otherwise the ticket is unchanged and the example is shown. It never reaches Done. |
| `Tickets.MethodStepChooses` | index.js:154-177 | "robux" wins over "real" or "cash". Either of those chooses cash. Anything else changes nothing and asks again. The amount is kept and the ticket never returns to AskAmount. |
| `Tickets.RobuxQuoteIsExact` | index.js:155-164 | A Robux quote is a multiple of 50 within 25 of the exact price. Its gamepasses are catalogue gamepasses, largest first, and sum to exactly the quoted Robux. |
| `Tickets.CashQuoteIsExact` | index.js:167-174 | A cash quote is `3g / 2000` cents rounded to the nearest cent. |
| `Tickets.ChatTurnLength` | index.js:182-195 | Done keeps its step, amount and method. With no AI nothing changes. An answered turn takes the memory from L to `(L + 1 > 10 ? L : L + 1) + 1` entries, ending with the message and its answer. A failed AI call leaves the pushed message last. |
| `Tickets.ConversationLength` | index.js:186-195 | After n answered turns from empty memory, it holds 2n entries while n <= 5 and n + 5 after that. |
| `Tickets.MemoryUnbounded` | index.js:186-195 | For every bound some conversation makes the memory longer than it. |
| `Tickets.TicketDesk.constructor` | index.js:105 | The desk starts with no tickets and holds the configured payment links. |
| `Tickets.TicketDesk.ResetTicket` | index.js:107-115 | The channel's record becomes a fresh ticket for the user; other channels are unchanged. |
| `Tickets.TicketDesk.Step` | index.js:123-202 | Bots and channels outside the category change nothing and get no reply. A first message opens the ticket and asks for the amount. A non-owner changes nothing. Otherwise the record and reply are those of `Advance`, and the text is the rendered reply. All tickets stay valid. |
| `Tickets.TicketDesk.Respond` | index.js:138-197 | A message from the owner changes the channel's record and gives the reply exactly as `Advance` says. |
| `Tickets.TicketDesk.AnswerAmount` | index.js:145-152 | Updates the channel's record in place as the amount step says. |
| `Tickets.TicketDesk.AnswerMethod` | index.js:154-177 | Updates the record as the payment step says, building the breakdown with the greedy loop. |
| `Tickets.TicketDesk.Chat` | index.js:182-197 | Pushes the message, shifts when over ten and pushes the answer, as the chat step says. |

## Left out

- The Discord client, login, intents and sending messages (index.js:1-14, 119-121, 204). `Step` returns the text it would send.
- The AI client set-up and the chat-completion call (index.js:25-36, 189-194). Availability is a boolean input. The answer is an input, with none meaning the call threw; the error is then logged and only the pushed user message remains.
- The HTTP remote-control server with its panel page and `/send` endpoint (index.js:208-249).
- The environment and configuration reads (index.js:16-21, 27). The payment links are constructor arguments of `TicketDesk`.
- `isTicketChannel` (index.js:63-67). It only reads a foreign object's `parentId`, so it is the boolean input `inTicketCategory`.
- JavaScript floating point. `Number` on very long digit runs, `Math.round` at inexact half-way products and `toFixed` rounding of binary fractions are replaced by exact rational arithmetic.
- Text.ToLower: only A-Z and the Kelvin sign (which lower-cases to `k`) are mapped. Other non-ASCII letters are left as they are; none of them lower-cases to a digit, a comma, a dot, `k`, `m` or a letter of the keywords.
- The async interleaving of concurrent handler calls. Each message is processed as one atomic step, so a `restart` that arrives while the AI call is pending, which in the source leaves the answer in the replaced record, is not modelled.
- The handler updates the record through a local reference `t`. The model writes the new record back into the map. The two agree as long as messages are handled one at a time (see the async line).
- Exceptions other than a failed AI call, such as a failed send, are not modelled.
- AmountParsing.StripCommas: its contract names the characters that remain but not that their order is kept; the order is what `FirstToken` reads, through the function's definition.
- The contents of the chat `model` argument and the role names sent to the AI are not modelled beyond the user/assistant roles kept in memory.
