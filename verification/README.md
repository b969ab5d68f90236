# CodeCraft chatbot: rule-based response engine and Gemini history, in Dafny

This project models the logic of a Laravel project-consultant chatbot.

The rule-based path is `ChatbotController::generateResponse`:
- a blank description (`trim` gives `''`) is answered with an error box;
- any other description is lower-cased, split on single spaces, stripped of stop-words and of tokens of two bytes or fewer;
- the tokens are classified by an ordered chain of keyword rules into one of `student_exam_system`, `inventory_system`, `ecommerce_system`, `blog_system` or `general`;
- the category selects a fixed recommendation record (`getProjectResponse`);
- `formatResponse` renders the record into HTML, eight sections in a fixed order.

The Gemini path is modelled only in how it builds the chat history:
- `ChatbotService::formatHistory` turns the saved conversation into alternating user and model entries;
- `generateGeminiResponse` seeds an empty history with the persona prompt and a canned acknowledgement.

Modules, one per stage:
- `PhpStrings` (`php_strings.dfy`): byte strings and the PHP built-ins used, namely `strtolower`, `trim` and `explode`, with `implode` as the inverse of `explode` for the round-trip lemmas.
- `Tokenizer` (`tokenizer.dfy`): the stop-word and length filter.
- `Classifier` (`classifier.dfy`): the keyword chain, with a rule table in priority order as an independent statement of it.
- `Templates` (`templates.dfy`): the four records, with their literal texts.
- `Renderer` (`renderer.dfy`): `formatResponse`. It is an imperative accumulator proved equal to a specification function `Render`, with lemmas about section order, the wrapper and the list items.
- `Controller` (`controller.dfy`): `generateResponse` and end-to-end properties.
- `GeminiHistory` (`history.dfy`): `formatHistory` and the seeding block.
- `Options` (`options.dfy`): an option type for the nullable `ai_response_raw`.

Input text is a sequence of bytes (`Byte` is a char below 256), so `strlen` is the sequence length. The HTML produced is a `string`.

Facts about the code that shape the model:
- Tokens come from `explode(' ', …)` (app/Http/Controllers/ChatbotController.php:39), so only single spaces split. Tabs and newlines stay inside tokens. Repeated spaces give empty pieces, which the length filter then drops.
- The ecommerce rule is `ecommerce || shop || store || (online && sell)` (:55), because PHP's `&&` binds tighter than `||`. `online` alone does not trigger it.
- The fallback category is `"general"` (:49).
- The template `switch` has no `blog_system` case (:70-241), so a blog request gets the default record.
- `generateResponse` checks only blankness (:34-36).

## Model

| member | source | states |
|---|---|---|
| PhpStrings.Lower | app/Http/Controllers/ChatbotController.php:39 | `strtolower` keeps the length and lowers each byte independently (ASCII letters only) |
| PhpStrings.LowerIsIdempotent | app/Http/Controllers/ChatbotController.php:39 | a lowered string holds no upper-case letter, and lowering it again changes nothing |
| PhpStrings.LowerIgnoresCase | app/Http/Controllers/ChatbotController.php:39 | strings equal up to letter case lower to the same string |
| PhpStrings.TrimLeft | app/Http/Controllers/ChatbotController.php:34 | the result is a suffix of the input, every dropped byte is a trim byte, and the result does not start with one |
| PhpStrings.TrimRight | app/Http/Controllers/ChatbotController.php:34 | the result is a prefix of the input, every dropped byte is a trim byte, and the result does not end with one |
| PhpStrings.TrimEmptyIff | app/Http/Controllers/ChatbotController.php:34 | `trim(s) === ''` iff every byte of `s` is one of space, tab, LF, CR, NUL, VT |
| PhpStrings.Explode | app/Http/Controllers/ChatbotController.php:39 | `explode(' ', s)` gives at least one piece and no piece contains a space |
| PhpStrings.ImplodeExplode | app/Http/Controllers/ChatbotController.php:39 | joining the pieces of `explode` with single spaces gives back the input, so no byte is lost or reordered |
| PhpStrings.ExplodeImplode | app/Http/Controllers/ChatbotController.php:39 | splitting a space-joined list of space-free pieces gives the pieces back |
| Tokenizer.FilterTokens | app/Http/Controllers/ChatbotController.php:42-46 | `array_diff` plus `array_filter`: the result is no longer than the input, and a word is in it iff it is in the input, is no stop-word and is longer than two bytes |
| Tokenizer.TokensAreKept | app/Http/Controllers/ChatbotController.php:42-46 | no surviving token is a stop-word or two bytes or shorter; in particular the empty piece never survives |
| Tokenizer.TokensArePieces | app/Http/Controllers/ChatbotController.php:39-46 | a word that passes the filters is a token iff it is a piece of the lowered input; every token is space-free and has no upper-case letter |
| Tokenizer.ExplodeBytesFromInput | app/Http/Controllers/ChatbotController.php:39 | every byte of every piece of `explode` occurs in the input |
| Tokenizer.TokensIgnoreCase | app/Http/Controllers/ChatbotController.php:39-46 | inputs that differ only in letter case give the same token list |
| Classifier.FirstMatchIsLeast | app/Http/Controllers/ChatbotController.php:49-59 | a priority table yields the category of the lowest-numbered rule that fires, and `general` when none fires |
| Classifier.ClassifyIsFirstMatch | app/Http/Controllers/ChatbotController.php:49-59 | the if/elseif chain agrees on every token list with the four-rule table (student/exam, inventory, ecommerce, blog) read first-match-wins |
| Classifier.StudentExamBeatsInventory | app/Http/Controllers/ChatbotController.php:50-54 | tokens holding `student`, `exam` and `inventory` classify as `student_exam_system` |
| Classifier.OnlineNeedsSell | app/Http/Controllers/ChatbotController.php:55 | the result is `ecommerce_system` iff neither earlier rule fires and one of `ecommerce`, `shop`, `store`, or both `online` and `sell`, is a token |
| Classifier.ContentNeedsManagement | app/Http/Controllers/ChatbotController.php:57 | without `blog` and `management`, the result is never `blog_system`, whatever else (such as `content`) is present |
| Classifier.ClassifiedRuleFires | app/Http/Controllers/ChatbotController.php:49-59 | a non-general result is returned only when its own rule fires and no earlier rule does |
| Templates.Template | app/Http/Controllers/ChatbotController.php:68-242 | every record has 10 features, 6 technologies, 6 terms and 5 questions |
| Templates.BlogUsesDefault | app/Http/Controllers/ChatbotController.php:200-241 | `blog_system` falls to the `default` case: its record is the general one |
| Renderer.AppendItems | app/Http/Controllers/ChatbotController.php:264-268 | the `foreach` appends exactly `<li>item</li>` for each item, in list order |
| Renderer.AppendSection | app/Http/Controllers/ChatbotController.php:249-314 | one section block appends exactly that section's markup (opening div, heading, lead, content, tail, closing div) |
| Renderer.FormatResponse | app/Http/Controllers/ChatbotController.php:245-319 | the accumulator ends as `Render(d)`: the wrapper holding the eight sections in order |
| Renderer.WithSectionsAppends | app/Http/Controllers/ChatbotController.php:247-316 | appending sections to a prefix leaves the prefix in front of the sections' own markup, in order |
| Renderer.RenderIsSectionsInOrder | app/Http/Controllers/ChatbotController.php:247-316 | the response is the `response-content` opening tag, then each section's markup in the order advice, duration, features, technologies, budget, terms, summary, questions, then `</div>` |
| Renderer.RenderIsWrapped | app/Http/Controllers/ChatbotController.php:247-316 | the response begins with the `response-content` opening tag and ends with `</div>` |
| Renderer.ListedItemsInOrder | app/Http/Controllers/ChatbotController.php:264-312 | the listed items are the features, then technologies, then terms, then questions, each list in its own order |
| Renderer.ListSectionReadsBack | app/Http/Controllers/ChatbotController.php:261-314 | each list section's markup is a head ending in `<ul>`, then the `<li>` items of exactly that section's list, then `</ul></div>`; reading that body back gives the list, in order (for items without `<`); paragraph sections list nothing |
| Renderer.ItemsRoundTrip | app/Http/Controllers/ChatbotController.php:265-267 | reading `<li>…</li>` items back out of a rendered list gives the list itself, for items without `<` |
| Controller.GenerateResponse | app/Http/Controllers/ChatbotController.php:32-66 | the method returns `Response(input)`: the error box if blank, else the rendered record of the input's category |
| Controller.ErrorIffBlank | app/Http/Controllers/ChatbotController.php:34-36 | the error box is returned iff the input is blank |
| Controller.BlankIffOnlyTrimBytes | app/Http/Controllers/ChatbotController.php:34 | an input is blank iff all its bytes are `trim` bytes, including the empty input |
| Controller.NonBlankIsWrapped | app/Http/Controllers/ChatbotController.php:62-65 | every non-blank input is answered with the `response-content` wrapper |
| Controller.ResponseDependsOnlyOnType | app/Http/Controllers/ChatbotController.php:62-68 | two non-blank inputs of the same category get identical HTML; the input text is never copied into it |
| Controller.BlogAnsweredAsGeneral | app/Http/Controllers/ChatbotController.php:200-241 | a blog input and a general input get identical HTML |
| Controller.BlankIgnoresCase | app/Http/Controllers/ChatbotController.php:34 | blankness does not depend on letter case |
| Controller.ResponseIgnoresCase | app/Http/Controllers/ChatbotController.php:34-65 | inputs that differ only in letter case get the same response |
| Controller.TwentySevenItems | app/Http/Controllers/ChatbotController.php:264-312 | the four lists of every record, which the list sections render in this order, hold 27 items: 10 + 6 + 6 + 5, in template order |
| GeminiHistory.Turns | app/Services/ChatbotService.php:63-77 | the history has exactly two entries per saved exchange |
| GeminiHistory.FormatHistory | app/Services/ChatbotService.php:63-77 | the loop returns `Turns(conv)` |
| GeminiHistory.TurnsAt | app/Services/ChatbotService.php:66-74 | entry `2i` is a user entry holding `user_message` of exchange `i` verbatim; entry `2i + 1` is a model entry holding its `ai_response_raw`, or `OK.` when that is null |
| GeminiHistory.TurnsAlternate | app/Services/ChatbotService.php:67-74 | entries alternate: user at even positions, model at odd ones |
| GeminiHistory.TurnsAppend | app/Services/ChatbotService.php:66 | message order is preserved: the history of `a + b` is the history of `a` followed by that of `b` |
| GeminiHistory.TurnsDetermineTexts | app/Services/ChatbotService.php:66-74 | two conversations give the same history iff their user messages and model texts agree exchange by exchange |
| GeminiHistory.StartHistory | app/Services/ChatbotService.php:40-45 | the method returns `StartingHistory(conv)`: the formatted history, or the two seed entries when it is empty |
| GeminiHistory.SeededIffNew | app/Services/ChatbotService.php:42-45 | an empty conversation gets exactly the persona prompt as user and `OK, I am ready to act as CodeCraft AI.` as model; any other conversation is passed through unseeded |
| GeminiHistory.StartingHistoryAlternates | app/Services/ChatbotService.php:40-45 | the history handed to the chat is non-empty and of even length, starts with a user entry, and alternates user and model |

## Left out

- `index` and `process` (app/Http/Controllers/ChatbotController.php:9-30) are Laravel validation, session flashing and redirects. The `max:1000` rule is not a precondition here, because `generateResponse` itself accepts any length.
- The Gemini client, `startChat`, `sendMessage`, exception logging and error codes are network calls and foreign libraries. So is `Markdown::convert` (app/Services/ChatbotService.php:20-31, :49-59, :79-82). Only the history handed to `startChat` is modelled.
- Saved-chat routes, follow-up detection and conversation persistence are not modelled: the routes name controller methods that are not part of this model. The Blade views and their JavaScript are UI.
- `Content::parse` is modelled as a plain (role, text) pair. Other part types, and roles other than user and model, are not modelled.
- A saved message without a `user_message` key is not modelled: `Message` always carries one. PHP would pass null to `Content::parse`.
- `strtolower` is modelled as ASCII-only, as in PHP 8.2 and later. Locale-dependent lowering of bytes 128-255 in older PHP versions is not modelled.
- Tokenizer.FilterTokens: keeps the surviving tokens in order as a list and states membership. The array keys that `array_diff` and `array_filter` preserve are not modelled, since only `in_array` reads the result.
- Controller.TwentySevenItems: counts the items of the record's four lists, in section order. It does not count `<li>` occurrences in the HTML string. The link to the markup is `Renderer.RenderIsSectionsInOrder` with `Renderer.ListSectionReadsBack`. The shipped item texts are not shown to be free of `<`, for the reason given for Renderer.ItemsRoundTrip.
- Renderer.ItemsRoundTrip: stated for every list whose items contain no `<`. The model does not check that the shipped template texts meet that condition; the literals are too long for the verifier to inspect byte by byte. The budget text does contain markup (`<br><small>`), and it is rendered as-is.
- Templates.Template: states the list sizes. The record texts are kept as literal constants, and no property of their wording is proved.
- Emoji are modelled as Unicode characters in the HTML string, not as their UTF-8 bytes.
