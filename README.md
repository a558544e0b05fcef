# farmassist core, modelled in Dafny

farmassist is a React front end for farmers. Most of it is page layout. The
parts with real logic are a few event handlers and derived values, and this
project models those and proves what they promise:

- **Game** (`game.dfy`). A `Session` class holds the farm game's state: points,
  level, level progress, the task catalogue, achievements and leaderboard.
  `CompleteTask` is the `completeTask` handler. It walks the task list the
  way `tasks.map` does and awards an open task's points. Reaching 100 percent
  raises the level once and carries the excess over.
  - The loop is proved equal to `Sweep`, a function over the tasks.
  - Lemmas about `Sweep` and `Award` state the handler's properties.
  - A task worth `p` points is worth `p / 2` percent, so progress is always
    a whole or half percentage. The model keeps it exactly, in half-percent
    units (`halfProgress == 2 * levelProgress`, one full level = 200).
  - The leaderboard's displayed rank `i + 1` is related to the number of
    farmers with more points.
- **Finance** (`finance.dfy`). Income and expense totals and the net balance
  are pure functions of the transaction list. A `Tracker` class holds the
  list and the form. `AddTransaction` validates the form, then puts the new
  record at the front and resets the form.
- **Community** (`community.dfy`). A `Feed` class holds the posts and the
  draft. `LikePost` toggles a post's like. `SubmitPost` refuses a draft that
  is blank once trimmed; otherwise it puts a new post by "You" at the top.
- **Chatbot** (`chatbot.dfy`). `Classify` is the keyword classifier. It is
  case-insensitive, matches substrings, and the first group that matches
  wins. Sending a message is split into the step before the delay (`Send`)
  and the delayed reply (`Deliver`). The values the delayed callback
  captured travel in a `PendingReply`. A `Session` class runs both steps on
  its fields.
- **Government schemes** (`govtschemes.dfy`). The category drop-down's
  options are the catalogue's categories without repeats, in order of first
  occurrence. The list shown is the catalogue filtered by a case-insensitive
  search of the title or description and by an optional category.
- **Text** (`text.dfy`) holds the string operations the pages rely on:
  `toLowerCase`, `includes` and `trim`, over ASCII. `wrappers.dfy` holds
  `Option` and `Result`.

Three things the game page does not do, and the model does not either:

- no handler advances an achievement or grants its reward;
- the leaderboard is never re-ranked: it is a constant list shown in its
  stored order;
- `completeTask` raises no errors: it ignores an unknown or already
  completed id silently.

## Model

| member | source | states |
|---|---|---|
| Text.Lower | src/pages/Chatbot.tsx:53 | lower-casing keeps the length and lower-cases each character, only ASCII capitals changing |
| Text.LowerIdempotent | src/pages/GovtSchemes.tsx:93-94 | lower-casing an already lower-cased text changes nothing |
| Text.ContainsSpec | src/pages/Chatbot.tsx:55-64 | `includes` is true exactly when the sub-string occurs at some index of the text |
| Text.TrimShape | src/pages/Community.tsx:106 | `trim` leaves the slice of the text between its leading and its trailing white space: what is cut off at either end is all white space; the result neither starts nor ends with white space; it is empty exactly when the text is all white space |
| Text.TrimEmpty | src/pages/Chatbot.tsx:32 | a text is blank once trimmed exactly when every character is white space |
| Game.Award | src/pages/Game.tsx:141-150 | points grow by the task's points; level and progress together grow by exactly the points, in half-percent units; the level rises by one exactly when progress reaches 100 percent, and otherwise stays |
| Game.AwardBelowFull | src/pages/Game.tsx:144-150 | below 100 percent the level is unchanged and the progress is the old progress plus points / 2 |
| Game.AwardReachesFull | src/pages/Game.tsx:144-147 | at or past 100 percent the level rises by one and the progress becomes the new progress minus 100 |
| Game.AwardKeepsProgressInRange | src/pages/Game.tsx:144-150 | starting in [0, 100) percent, a task worth under 200 points keeps progress in [0, 100) |
| Game.AwardCarriesOnce | src/pages/Game.tsx:145-147 | the carry happens once, with no loop: 400 points from 99.5 percent leave the progress at 199.5 percent |
| Game.SweepTasks | src/pages/Game.tsx:138-156 | completing keeps the list's length and order; the task with the id comes out completed and every other task is unchanged |
| Game.SweepKeepsCompleted | src/pages/Game.tsx:139-156 | a completed task stays completed and unchanged |
| Game.SweepAwards | src/pages/Game.tsx:139-150 | points and progress grow by exactly the points of the open tasks with the id; the level never drops |
| Game.SweepWithoutPending | src/pages/Game.tsx:138-157 | an unknown id, or an id whose task is already completed, changes nothing: same points, level, progress and tasks, and no error |
| Game.SweepOnePending | src/pages/Game.tsx:139-150 | with distinct ids, completing an open task awards exactly that task's points once through the level engine |
| Game.SweepIdempotent | src/pages/Game.tsx:139-156 | completing the same task twice is the same as completing it once |
| Game.SweepKeepsRange | src/pages/Game.tsx:144-150 | with every task worth under 200 points, completion keeps the progress in [0, 100) percent |
| Game.SeedTaskIds | src/pages/Game.tsx:45-94 | the catalogue's task ids are distinct; task "1" comes first, is open and is worth 10 points |
| Game.CompleteFirstSeedTask | src/pages/Game.tsx:41-53 | from 450 points, level 3, 70 percent, completing task "1" gives 460 points, level 3, 75 percent, with only that task completed |
| Game.RankCountsHigher | src/pages/Game.tsx:438 | on a board with strictly decreasing points, the displayed rank `i + 1` is one more than the number of farmers with more points |
| Game.SeedLeaderboardRanks | src/pages/Game.tsx:126-135 | the seeded board strictly decreases in points, and the current user is the one entry flagged, shown third |
| Game.Session.constructor | src/pages/Game.tsx:41-135 | the page starts at 450 points, level 3, 70 percent, with the seeded tasks, achievements and leaderboard |
| Game.Session.CompleteTask | src/pages/Game.tsx:137-158 | the new standing and tasks are `Sweep` of the old ones; achievements and leaderboard are untouched; progress stays in [0, 100) |
| Finance.OfType | src/pages/Finance.tsx:72-78 | the filter keeps exactly the transactions of the given type (as members; multiplicity is in the next row) |
| Finance.OfTypeCounts | src/pages/Finance.tsx:72-78 | the filter keeps each transaction of the given type as many times as it occurs in the list, and no transaction of the other type |
| Finance.TotalsOfPrepend | src/pages/Finance.tsx:72-78 | a transaction added at the front raises the total of its own type by its amount and leaves the other total unchanged |
| Finance.NetBalanceIsSignedSum | src/pages/Finance.tsx:72-80 | the net balance, income minus expenses, equals the one-pass sum of incomes counted up and expenses counted down |
| Finance.TotalsNonNegative | src/pages/Finance.tsx:72-78 | with no negative amounts, neither total is negative |
| Finance.ShowBalance | src/pages/Finance.tsx:154-160 | the up arrow is shown exactly when the net balance is at least zero; the figure is its absolute value |
| Finance.Validate | src/pages/Finance.tsx:83-93 | an empty amount or source is refused as missing fields, whatever the amount parses to; otherwise a non-number or an amount of at most zero is refused as invalid; everything else is accepted with the parsed amount |
| Finance.AddRaisesTotals | src/pages/Finance.tsx:72-103 | an accepted form raises the total of its type by the amount, leaves the other total, and moves the net balance by plus or minus the amount |
| Finance.Tracker.constructor | src/pages/Finance.tsx:39-70 | the page starts with the six seeded transactions and a blank income form dated today |
| Finance.Tracker.SetType | src/pages/Finance.tsx:191 | the type drop-down changes the form's type and nothing else |
| Finance.Tracker.SetAmount | src/pages/Finance.tsx:207 | the amount box changes the form's amount text and nothing else |
| Finance.Tracker.SetSource | src/pages/Finance.tsx:221 | the source box changes the form's source and nothing else |
| Finance.Tracker.SetDate | src/pages/Finance.tsx:231 | the date box changes the form's date and nothing else |
| Finance.Tracker.AddTransaction | src/pages/Finance.tsx:82-113 | the outcome is `Validate` of the form; a refusal changes nothing; an acceptance puts one record with the form's type, amount, source and date in front of the old list and resets the form |
| Community.ToggleLike | src/pages/Community.tsx:94-99 | liking an unliked post adds one like and sets `liked`; liking a liked post removes one and clears it; nothing else changes |
| Community.ToggleKeepsOthersLikes | src/pages/Community.tsx:97-98 | toggling keeps the likes from everybody else, `likes - (liked ? 1 : 0)` |
| Community.ToggleTwice | src/pages/Community.tsx:97-98 | toggling twice restores the post |
| Community.LikeToggled | src/pages/Community.tsx:93-102 | the feed keeps its length and order; posts with the id are toggled; every other post is unchanged |
| Community.LikeTwice | src/pages/Community.tsx:92-103 | liking the same post twice restores the feed |
| Community.LikeUnknownId | src/pages/Community.tsx:93-102 | liking an id no post has leaves the feed unchanged |
| Community.LikeKeepsOthersLikes | src/pages/Community.tsx:93-102 | liking keeps, post by post, everybody else's likes and every field other than `likes` and `liked` |
| Community.Feed.constructor | src/pages/Community.tsx:37-90 | the page starts with the four seeded posts and an empty draft |
| Community.Feed.TypePost | src/pages/Community.tsx:170 | typing replaces the draft |
| Community.Feed.LikePost | src/pages/Community.tsx:92-103 | the new feed is `LikeToggled` of the old one |
| Community.Feed.SubmitPost | src/pages/Community.tsx:105-127 | a draft that is blank once trimmed is refused and nothing changes; otherwise one post by "You" with the untrimmed draft, no likes or comments, "Just now" and not liked is put in front of the old posts, and the draft is cleared |
| Chatbot.MentionsByGroup | src/pages/Chatbot.tsx:55-63 | each reply group's keyword test is the page's disjunction of `includes` calls; the fallback group has no keywords |
| Chatbot.ClassifyFirstMatch | src/pages/Chatbot.tsx:53-67 | the chosen group has a keyword in the lower-cased message, no earlier group has one, and the fallback is chosen exactly when no keyword occurs |
| Chatbot.ClassifyIsFirstMatch | src/pages/Chatbot.tsx:55-66 | the first-match rule determines the group: any group that satisfies it is the one chosen |
| Chatbot.ClassifyIgnoresCase | src/pages/Chatbot.tsx:53 | a message and its lower-cased form get the same reply |
| Chatbot.WhichIsGreeting | src/pages/Chatbot.tsx:63 | matching is by substring: "which" contains "hi" and gets the greeting |
| Chatbot.Send | src/pages/Chatbot.tsx:31-46 | input that is blank once trimmed changes nothing and schedules no reply; otherwise the raw input is appended as a user message numbered length + 1, the input is cleared, the bot is typing, and the reply remembers the input and the old length |
| Chatbot.Deliver | src/pages/Chatbot.tsx:69-77 | the reply appends exactly one bot message, numbered the remembered length + 2, and the bot stops typing |
| Chatbot.SendKeepsNumbering | src/pages/Chatbot.tsx:35-42 | sending keeps the messages numbered 1, 2, 3, ..., and the remembered length is one short of the new length |
| Chatbot.DeliverKeepsNumbering | src/pages/Chatbot.tsx:69-76 | the reply keeps the numbering exactly when nothing else was sent since its message |
| Chatbot.OverlappingSendsShareId | src/pages/Chatbot.tsx:31-79 | a second message sent before the first reply gets the id that the reply will also get |
| Chatbot.Session.constructor | src/pages/Chatbot.tsx:20-29 | the chat starts with the bot's greeting, an empty input and the bot not typing |
| Chatbot.Session.TypeMessage | src/pages/Chatbot.tsx:208 | typing replaces the input |
| Chatbot.Session.SendMessage | src/pages/Chatbot.tsx:31-46 | the new state and the pending reply are those of `Send` |
| Chatbot.Session.DeliverReply | src/pages/Chatbot.tsx:49-78 | the new state is that of `Deliver`; the input is untouched |
| GovtSchemes.Distinct | src/pages/GovtSchemes.tsx:90 | the options have no repeats and are exactly the values of the input |
| GovtSchemes.DistinctFirstOccurrenceOrder | src/pages/GovtSchemes.tsx:90 | the options follow the order of the values' first occurrences |
| GovtSchemes.CategoriesSpec | src/pages/GovtSchemes.tsx:90 | every scheme's category is offered exactly once, only those are offered, in order of first occurrence in the catalogue |
| GovtSchemes.Filter | src/pages/GovtSchemes.tsx:92-99 | a scheme is shown exactly when it is in the catalogue and matches both the search and the category; what is shown keeps the catalogue's order |
| GovtSchemes.FilterNothing | src/pages/GovtSchemes.tsx:92-99 | an empty search with no category shows the whole catalogue, in order |
| GovtSchemes.FilterByCategory | src/pages/GovtSchemes.tsx:96 | with a category chosen, every scheme shown has exactly that category |
| GovtSchemes.FilterIgnoresCase | src/pages/GovtSchemes.tsx:93-94 | the search ignores the case of the search text |
| GovtSchemes.SelectRoundTrip | src/pages/GovtSchemes.tsx:135-136 | choosing an option and reading the drop-down back gives that option; the empty option means no category |
| GovtSchemes.Browser.constructor | src/pages/GovtSchemes.tsx:34-88 | the page renders the five-scheme catalogue, starting with an empty search and no category |
| GovtSchemes.Browser.SetSearch | src/pages/GovtSchemes.tsx:117 | the search box replaces the search text, and the schemes shown become the catalogue filtered by the new text and the unchanged category |
| GovtSchemes.Browser.ShowAllCategories | src/pages/GovtSchemes.tsx:126 | "All Categories" clears the category, and the schemes shown become those matching the search alone |
| GovtSchemes.Browser.SelectCategory | src/pages/GovtSchemes.tsx:136 | the drop-down sets the chosen category, the empty option clearing it; the schemes shown become the catalogue filtered by the search and the new category, so with a category chosen every scheme shown has it |

## Left out

- Rendering, `toast` notifications and icons (JSX elements) are not modelled.
- The chat reply's 1.5-second `setTimeout` is not modelled. Sending and replying are two separate atomic steps; what the callback captured is passed as a `PendingReply`.
- Clock readings are inputs. `Date.now()` ids and `new Date()` dates (Finance, Community) are method parameters. The chat messages' timestamps are left out.
- Finance.Tracker.AddTransaction: `parseFloat` is not modelled. The method receives its result as `Option<real>`, with `None` for NaN. Amounts are exact reals, not floating point. `toFixed(2)` and `Math.round` percentages are display only and left out.
- Text.Lower: only ASCII capitals are lower-cased. Unicode case folding is not modelled.
- Text.TrimShape: only ASCII white space counts. The other Unicode spaces that `trim` also removes do not.
- Game.Session.CompleteTask: models each matching task in turn on the current state. The page decides each level-up and the new progress from the progress captured when it rendered; points and level accumulate through updater functions. The two differ only for duplicate ids, and the catalogue has none (Game.SeedTaskIds).
- Game.Session.CompleteTask: requires every task to be worth under 200 points, as in the catalogue. This keeps progress below 100 percent after the single-step carry.
- Game: task and leaderboard points are `nat`; the catalogue's values are whole and non-negative.
- Game: achievements are never advanced and the leaderboard is never re-sorted, because no handler does either; there are no rank-placement or reward rules to model.
- Game: the stored leaderboard avatars are emoji made of several code points. They are kept as written.
- GovtSchemes: the third scheme's benefits text is kept with its characters exactly as stored, including the mis-encoded rupee sign.
- GovtSchemes: a chosen category of `""` counts as no category, as JavaScript's truthiness test does. The drop-down handler never stores it.
- Finance's savings goals and the chatbot's quick-prompt buttons (which send against stale input) are not modelled.
- Pages outside this core are not part of this model: image analysis (random result, file upload), authentication context, navigation, routes, dashboard and landing page.
