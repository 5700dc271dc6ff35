# Portfolio chat assistant — a Dafny model

This project models the text logic behind the chat assistant on Shreyata
Kulkarni's portfolio site. It covers three parts:

- **The chat widget** (`components/chatbot.tsx`).
  - `generateResponse` is a local keyword responder. It lower-cases the
    question, tries an ordered chain of keyword rules, and answers from the
    first rule that fires.
  - The skills rule sorts the caller's skills array in place by descending
    level, stably, and lists the top five as `name (level%)`.
  - The company rules look entries up by exact company name.
  - `handleSendMessage` manages the conversation. It keeps the message
    history, a response cache keyed by the raw input, the typing flag, the
    text box, and the two timer callbacks that deliver a reply.
- **The chat route** (`app/api/chat/route.tsx`). It serialises the skills and
  experiences, embeds them and the quoted question in a fixed prompt, and
  answers with the generated text or with a fixed 500 error.
- **The page** (`app/page.tsx`). It holds the concrete skills and
  work-history tables that the widget answers from. It also highlights the
  first section in view in the navigation.

Modules:

| file | module | contents |
|---|---|---|
| `wrappers.dfy` | `Wrappers` | `Option` and `Result` |
| `strings.dfy` | `Strings` | JavaScript's `toLowerCase` (ASCII letters), `includes`, `join`, `trim`, `split` on one character as the inverse of `join`, and integer rendering with its parser |
| `profile.dfy` | `Profile` | the skill and experience records, and `name (level%)` |
| `skill_ranking.dfy` | `SkillRanking` | the stable descending sort as a function, its specification, the top five, and the in-place insertion sort on an `array` |
| `chatbot.dfy` | `Chatbot` | the rule chain, the answers, and the `ChatWidget` class |
| `chat_route.dfy` | `ChatRoute` | the serialisation, the prompt template and the POST handler |
| `portfolio.dfy` | `Portfolio` | the page's two tables, facts about them, and the `ActiveSection` class |

Timers are modelled as events. Each submission schedules a pending reply.
`FireCachedReply` and `FireGeneratingReply` deliver any pending reply, in
any order. The widget's invariant `Valid` says:

- the history starts with the greeting;
- every cached text is the responder's answer to its key;
- every scheduled cache hit carries that answer;
- the skills array is the table as given, or that table sorted;
- user messages + 1 == bot messages + pending replies + generations that threw.

## Model

| member | source | states |
|---|---|---|
| `Strings.ToLower` | components/chatbot.tsx:56 | same length; no capital letter is left; each character is unchanged or is the small form of a capital |
| `Strings.ToLowerIdempotent` | components/chatbot.tsx:56 | lower-casing twice is lower-casing once |
| `Strings.ContainsIff` | components/chatbot.tsx:59 | `includes` holds exactly when the keyword occurs at some position |
| `Strings.JoinContainsItem` | components/chatbot.tsx:64 | every joined item occurs in the joined string |
| `Strings.JoinSplitAt` | app/api/chat/route.tsx:10-12 | a join cut after item k is the join of the first k items, the separator, and the join of the rest |
| `Strings.SplitJoin` | app/api/chat/route.tsx:13-26 | splitting a join on a separator that no item contains gives the items back |
| `Strings.NatToString` | components/chatbot.tsx:63 | non-empty decimal digits, with a leading zero only for 0 |
| `Strings.ParseNatToString` | components/chatbot.tsx:63 | the digits of n read back as n |
| `Strings.IntToStringRoundTrip` | components/chatbot.tsx:63 | every rendered integer, negative ones too, reads back as itself |
| `Strings.TrimStart` | components/chatbot.tsx:138 | a suffix of the input; only whitespace was removed; it starts with a non-whitespace character or is empty |
| `Strings.TrimEnd` | components/chatbot.tsx:138 | a prefix of the input; only whitespace was removed; it ends with a non-whitespace character or is empty |
| `Strings.Trim` | components/chatbot.tsx:138 | empty exactly when the input is all whitespace; otherwise it starts and ends with a non-whitespace character |
| `Profile.FormatSkill` | components/chatbot.tsx:63 | starts with the name and ends with ` (level%)` |
| `Profile.FormatSkills` | components/chatbot.tsx:63 | one rendering per skill, in the same order |
| `Profile.FormatSkillLevelReadsBack` | app/api/chat/route.tsx:11 | the level can be cut out of a rendered skill and parsed back |
| `SkillRanking.InsertByLevel` | components/chatbot.tsx:61 | one insertion step of the sort adds exactly one element |
| `SkillRanking.InsertPermutes` | components/chatbot.tsx:61 | an insertion adds its skill and loses nothing |
| `SkillRanking.InsertKeepsOrder` | components/chatbot.tsx:61 | inserting into a descending sequence keeps it descending |
| `SkillRanking.SortByLevel` | components/chatbot.tsx:61 | the sort keeps the length |
| `SkillRanking.SortByLevelPermutes` | components/chatbot.tsx:61 | the sort is a permutation |
| `SkillRanking.SortByLevelSorted` | components/chatbot.tsx:61 | the result is non-increasing in level |
| `SkillRanking.SortByLevelStable` | components/chatbot.tsx:61 | skills of equal level keep their table order |
| `SkillRanking.SortedIsFixpoint` | components/chatbot.tsx:61 | sorting an already sorted table changes nothing |
| `SkillRanking.SortByLevelIdempotent` | components/chatbot.tsx:60-61 | sorting twice is sorting once, so the second skills query sees the same ranking |
| `SkillRanking.SortByLevelSpec` | components/chatbot.tsx:61 | the result is descending and keeps each level's skills in table order |
| `SkillRanking.StableSortUnique` | components/chatbot.tsx:61 | any descending arrangement that keeps each level's order is the sort's result, so the specification pins it down |
| `SkillRanking.TopFive` | components/chatbot.tsx:60-62 | exactly min(5, table size) skills |
| `SkillRanking.TopFiveSpec` | components/chatbot.tsx:60-62 | the top five are descending and drawn from the table; every skill left out ranks no higher than any taken; each level's skills are taken in table order |
| `SkillRanking.InsertAt` | components/chatbot.tsx:61 | the insertion step puts the skill right where the backward scan stops |
| `SkillRanking.SortStep` | components/chatbot.tsx:61 | one step of the sort, on a prefix of a table |
| `SkillRanking.InsertIntoSorted` | components/chatbot.tsx:61 | the array's sorted prefix grows by one insertion step, and the rest of the array is untouched |
| `SkillRanking.SortSkillsInPlace` | components/chatbot.tsx:60-61 | the array, sorted in place, equals the stable descending sort of its old contents |
| `Chatbot.FirstMatch` | components/chatbot.tsx:58-131 | the first rule that fires at or after a position; no rule between fires |
| `Chatbot.Classify` | components/chatbot.tsx:56-134 | the fallback answers exactly when no rule's keyword occurs |
| `Chatbot.RuleTopicsDistinct` | components/chatbot.tsx:58-131 | each rule answers a topic of its own, never the fallback |
| `Chatbot.ClassifyFirstFiring` | components/chatbot.tsx:56-134 | rule k decides the answer exactly when it fires and no earlier rule fires |
| `Chatbot.FindCompany` | components/chatbot.tsx:76 | `find`: none exactly when no entry has the company; otherwise the first entry that has it |
| `Chatbot.FilterCompany` | components/chatbot.tsx:83 | `filter` never grows the table |
| `Chatbot.FilterCompanySelects` | components/chatbot.tsx:83 | `filter` keeps exactly the company's entries |
| `Chatbot.FilterStartsWithFind` | components/chatbot.tsx:83-84 | the filter is empty exactly when `find` finds nothing; otherwise it starts with what `find` returns |
| `Chatbot.Answer` | components/chatbot.tsx:58-134 | the only failure is the experience rule on an empty table |
| `Chatbot.Respond` | components/chatbot.tsx:55-135 | `generateResponse` throws exactly when the experience rule fires on an empty experience table |
| `Chatbot.RespondIgnoresCase` | components/chatbot.tsx:56 | a question and its lower-cased form get the same answer |
| `Chatbot.RespondAfterSort` | components/chatbot.tsx:59-65 | answering from the table after the in-place sort gives the same answers as before it |
| `Chatbot.SkillsAnswerListsTopFive` | components/chatbot.tsx:59-65 | the skills answer contains each of the top five as `name (level%)` |
| `Chatbot.SkillKeywordWins` | components/chatbot.tsx:59 | any skills keyword gets the skills answer, whatever else the question says |
| `Chatbot.MastercardPrecedence` | components/chatbot.tsx:59-80 | the Mastercard answer comes exactly when "mastercard" occurs and no skills or experience keyword does |
| `Chatbot.MastercardAnswerQuotesEntry` | components/chatbot.tsx:75-80 | with a Mastercard entry, the answer contains its role, its description and its achievements joined by ", " |
| `Chatbot.TcsAnswerQuotesEntry` | components/chatbot.tsx:87-92 | with a TCS entry, the answer contains its role, period and description |
| `Chatbot.ExperienceAnswerNamesCurrentJob` | components/chatbot.tsx:69-72 | the experience answer contains the first entry's role, company and period |
| `Chatbot.HsbcAnswerQuotesFirstPeriod` | components/chatbot.tsx:82-85 | the HSBC answer contains `(period)` of the first HSBC entry, or `(undefined)` when there is none |
| `Chatbot.RespondOnEitherTable` | components/chatbot.tsx:59-61 | the widget answers alike whether its array is still as given or already sorted |
| `Chatbot.CacheStore` | components/chatbot.tsx:168 | storing a generated answer keeps every cache entry equal to its key's answer |
| `Chatbot.ChatWidget.constructor` | components/chatbot.tsx:30-45 | the widget mounts with the greeting as its only message, an empty box and cache, no pending reply, and the typing flag down |
| `Chatbot.ChatWidget.SetInput` | components/chatbot.tsx:327 | the text box takes the new value and nothing else changes |
| `Chatbot.ChatWidget.Scheduled` | components/chatbot.tsx:152-167 | a cache hit on the exact raw input schedules the cached text; a miss schedules a generation |
| `Chatbot.ChatWidget.SendMessage` | components/chatbot.tsx:137-149 | a blank box changes nothing; otherwise the raw input is appended as a user message, the box is cleared, the flag is raised and one reply is scheduled, with the cache unchanged |
| `Chatbot.ChatWidget.Submit` | components/chatbot.tsx:140-167 | the non-blank branch: one user message is appended to the old history and one reply is scheduled |
| `Chatbot.ChatWidget.GenerateResponse` | components/chatbot.tsx:55-65 | returns the responder's answer on the array as it was; the array ends up sorted exactly when the skills rule fired |
| `Chatbot.ChatWidget.Generate` | components/chatbot.tsx:167 | the answer equals the responder's answer on the table as given, and the array stays the table or its sorted form |
| `Chatbot.ChatWidget.FireCachedReply` | components/chatbot.tsx:152-163 | the cached text, which is the answer to its input, is appended as a bot message; the flag drops; the cache is unchanged |
| `Chatbot.ChatWidget.FireGeneratingReply` | components/chatbot.tsx:164-178 | on success, the answer is appended and stored under the raw input, and the flag drops; if generation throws, nothing is appended or stored and the flag stays as it was |
| `Chatbot.ChatWidget.TakePending` | components/chatbot.tsx:166-177 | the fired reply leaves the pending list |
| `Chatbot.ChatWidget.Deliver` | components/chatbot.tsx:167-176 | the generated text is stored under its input and appended, and the flag drops |
| `ChatRoute.SkillsString` | app/api/chat/route.tsx:10-12 | empty exactly for no skills; a single skill gives exactly its `name (level%)` |
| `ChatRoute.ExperienceLine` | app/api/chat/route.tsx:22-24 | starts with `role at company (period): ` and ends with `. Achievements: ` and the achievements joined by ", " |
| `ChatRoute.ExperienceLines` | app/api/chat/route.tsx:13-25 | one line per experience, in request order |
| `ChatRoute.ExperiencesString` | app/api/chat/route.tsx:13-26 | empty for no experiences; one experience gives exactly its line |
| `ChatRoute.Post` | app/api/chat/route.tsx:40-56 | always JSON; 200 with `{text}` exactly when generation succeeds, otherwise 500 with the fixed error |
| `ChatRoute.JavaSkillString` | app/api/chat/route.tsx:10-12 | `[{Java, 90}]` renders as exactly `Java (90%)` |
| `ChatRoute.SkillsStringInOrder` | app/api/chat/route.tsx:10-12 | the skills string cut after skill k is the first k skills, ", ", then the rest |
| `ChatRoute.SkillsStringListsEach` | app/api/chat/route.tsx:10-12 | every requested skill appears in the skills string |
| `ChatRoute.ExperienceLineIsOneLine` | app/api/chat/route.tsx:22-24 | single-line fields give a single-line experience line |
| `ChatRoute.ExperiencesStringLines` | app/api/chat/route.tsx:13-26 | splitting the experiences string on line breaks gives back one line per experience, in order |
| `ChatRoute.PromptStartsWithSkills` | app/api/chat/route.tsx:28-33 | the prompt opens with the instructions, then the `Skills:` heading, then the skills string |
| `ChatRoute.PromptPlacesExperiences` | app/api/chat/route.tsx:35-36 | the experiences string sits right after the `Experience:` heading |
| `ChatRoute.PromptQuotesMessage` | app/api/chat/route.tsx:38 | the message follows the opening quote verbatim, and the prompt ends with the closing quote |
| `ChatRoute.PromptDeterminesMessage` | app/api/chat/route.tsx:28-38 | with the same data, different questions give different prompts |
| `ChatRoute.RoutePromptQuotesMessage` | app/api/chat/route.tsx:28-38 | the route's own prompt ends with the request's question, verbatim and quoted |
| `Portfolio.SkillsTableWellFormed` | app/page.tsx:81-91 | every level is in 0..100 and skill names are pairwise distinct |
| `Portfolio.ExperienceTableShape` | app/page.tsx:93-142 | six entries, each with exactly three achievements |
| `Portfolio.SkillsTableRanking` | app/page.tsx:81-91 | the full stable descending ranking of the page's skills |
| `Portfolio.SkillsTableTopFive` | app/page.tsx:81-91 | the top five are Selenium WebDriver, Test Automation, Agile/Waterfall, Java and Playwright; RestAssured, tied with Playwright at 88, is left out |
| `Portfolio.SkillsTableTopSkillsText` | app/page.tsx:81-91 | the skills answer's list on this table, character for character |
| `Portfolio.CurrentJobIsMastercard` | app/page.tsx:94-101 | the first entry, the current job, is Mastercard's "Senior Software Engineer", "Apr 2023 - Present", and `find` returns it |
| `Portfolio.HsbcEntries` | app/page.tsx:102-133 | exactly two HSBC entries, the first being "Senior QA Specialist", "Apr 2022 - Apr 2023" |
| `Portfolio.PageResponderAlwaysAnswers` | app/page.tsx:93-142 | on the page's experience table the responder never throws |
| `Portfolio.FirstInView` | app/page.tsx:74-79 | the selected section is in view and none ahead of it is; none is selected only when nothing is in view |
| `Portfolio.FirstInViewUnique` | app/page.tsx:74-79 | a section in view with nothing ahead of it in view is the one selected |
| `Portfolio.ActiveSection.constructor` | app/page.tsx:36 | the highlighted section starts as hero |
| `Portfolio.ActiveSection.OnVisibilityChange` | app/page.tsx:74-79 | the first section in view becomes active; with none in view the previous one stays |

## Left out

- Non-ASCII lower-casing: `ToLower` maps only `A`-`Z`, while JavaScript's `toLowerCase` folds every script. A few non-ASCII capitals lower-case to ASCII letters: U+212A (Kelvin sign) becomes `k`, and U+0130 becomes `i` followed by U+0307. For inputs containing them, the model can pick a different rule than the program. For example, `WOR` followed by U+212A gets the experience answer in the browser but the fallback in the model.
- Message ids and timestamps (`Date.now()`, `new Date()`): they are clock values and no rule reads them.
- The timer delays (300 ms, and 1000 ms plus a random amount): a pending reply may fire at any time and in any order.
- Overlapping submissions are allowed, as Enter does not check the typing flag. There is no real concurrency: each event runs to completion.
- The typing flag's UI guard (the disabled send button), scrolling, animation, the open/close toggle and all rendering.
- The text generator of the chat route (the Gemini client, its API key and model name). It is the function parameter `generate`, which either produces text or fails. Request JSON parsing and response serialisation become typed records.
- Fields the route types as `any`: they are modelled as the same typed records as the widget's. A request whose fields are not strings, or whose levels are not numbers, is not modelled.
- Skill levels are modelled as integers (`Profile.Skill.level: int`), which the page's tables use. In the browser a level is any JavaScript number. A non-integer or very large level renders differently there: `${88.5}` prints `88.5` and `${1e21}` prints `1e+21`. `IntToString` produces neither.
- `console.error` in the route's error path: it is logging only.
- app/api/api/route.ts, the contact-form relay, is not part of this model.
- The page's dark mode, loading screen, mobile menu, `Math.random` particle positions, links and CV download, and the icons and colours of the skills and experience rows.
- `Chatbot.Respond`: it does not state that a successful answer is non-empty. Each answer opens with a fixed non-empty phrase, but proving the length of those long reply literals exceeds the verifier's resource budget.
- `Chatbot.FilterCompany`: its own contract bounds only the length. Which entries it keeps is stated in `Chatbot.FilterCompanySelects`.
- `Chatbot.ChatWidget`: `respond` is a ghost description of the responder on the table as passed in. The widget's reads of the `skills` prop go through the array, which the skills rule sorts in place. The page recreates its tables on every render, and that is not modelled.
- `Chatbot.ChatWidget.FireCachedReply`: the source's `|| ""` fallback for a missing cache value cannot fire, because a hit is checked first and nothing removes cache entries.
