# Weibo stock-content analyzer, modelled in Dafny

`util/stock_analyzer.py` holds the class `StockAnalyzer`. It asks a language
model (Zhipu GLM) whether a Weibo post is about stocks. It pushes related
posts to a WeCom (企业微信) webhook. It remembers in `pushed_weibo_ids` the ids
of posts whose push the webhook acknowledged, so that no post is pushed
successfully twice. A post whose push failed is classified and pushed again
when it arrives again.

This project models the decision logic around the network calls:

- `wrappers.dfy`, module `Wrappers`: an `Option` type.
- `text.dfy`, module `Text`: the Python string built-ins the code relies on:
  `str.isspace`, `str.strip`, `sub in s`, `s.count(c)`, `"".join`. Also
  `str.find`, which is used only to state the inverse of the permalink.
- `stock_analysis.dfy`, module `StockAnalysis`:
  - the configuration and its defaults;
  - the relevance rule and the retry loop of `is_stock_related`;
  - the permalink, the choice of timestamp branch with its fallback, the
    message assembly and the success condition of `push_to_weixin`;
  - the dedup state machine of `analyze_and_push`.

  `StockAnalyzer` is a class with the settings as constants and the pushed-id
  set as a `set<string>` field. A post record is a class `Post` whose
  `stockAnalysis` field is written in place, as the source writes
  `weibo_data['stock_analysis']`. The pure function `Step` gives the effect of
  one `AnalyzeAndPush` call, and the method's postcondition is stated in terms
  of it.
- `dedup.dfy`, module `Dedup`: `Run` applies `Step` to a stream of posts
  handled by one analyzer. Its lemmas state the dedup guarantees:
  - ids enter the set only through acknowledged pushes;
  - every acknowledged push is recorded;
  - an id already in the set short-circuits;
  - no id is pushed successfully twice.

Network outcomes are inputs:

- Each request to the language model is an `Attempt`. `Reply(content)` means
  status 200 with `choices[0].message.content` present. `Fault` covers any
  other status, a transport error or a malformed body. Requests past the end
  of the given sequence fault.
- The webhook's answer is a `Delivery`: `Answered(status, errcode)` or
  `TransportFault`.
- Date conversion is a function `(TimeFormat, string) -> Option<string>`.
  It gives the rendered Beijing time that the chosen branch produces, or
  `None` when that branch's parse raises.

A field missing from a post is modelled as `""`. Every read of such a field
either defaults to `''` or only tests truthiness, so the two behave the same.

Where the code and its comments or documentation disagree, the model follows
the code:

- The `'T'` test on `created_at` comes first (line 146). So a Weibo-format
  timestamp whose weekday is `Thu` or `Tue` takes the ISO branch, not the
  Weibo branch that the comment on line 150 describes. When
  `fromisoformat` rejects it, the message shows the raw string.
  `WeekdayDecidesBranch` and `ThursdayTakesIsoBranch` state this.
- The time line and the text are separated by a single `"\n"`, not by a blank
  line (lines 173-174). Only the link line is preceded by a blank line.

## Model

| member | source | states |
|---|---|---|
| `StockAnalysis.SettingsOf` | util/stock_analyzer.py:24-29 | enabled only when `enabled` is given as true; key and webhook URL are taken as given; model defaults to "glm-4-flash" and `max_retries` to 3 |
| `StockAnalysis.StockAnalyzer.constructor` | util/stock_analyzer.py:17-32 | a missing `stock_config` section reads as empty; the settings get their defaults; the pushed-id set starts empty |
| `Text.Strip` | util/stock_analyzer.py:98 | the reply analysis is the infix of the reply left after cutting its leading and trailing whitespace; the result has no whitespace at either end, and everything removed is whitespace |
| `Text.Count` | util/stock_analyzer.py:149 | `created_at.count(' ')` is at most the length, and it is positive exactly when a space occurs |
| `Text.StripKeepsOccurrences` | util/stock_analyzer.py:98-101 | stripping never changes whether a non-empty, whitespace-free string such as the marker occurs in the reply |
| `StockAnalysis.Verdict` | util/stock_analyzer.py:98-101 | a reply counts as related exactly when "不相关" occurs nowhere in it; a reply containing the marker anywhere is not related; the analysis text is the stripped reply |
| `StockAnalysis.FirstReply` | util/stock_analyzer.py:86-104 | finds the first attempt within the retry budget that got a reply; every earlier attempt faulted, and when there is none, every attempt faulted |
| `StockAnalysis.Classify` | util/stock_analyzer.py:41-117 | disabled or missing key: `(False, "")` and no request; at most `max_retries` requests, none when it is <= 0; every request but the last faulted; a reply on the last one decides the result; otherwise `(False, "")` after exactly `max_retries` requests |
| `StockAnalysis.StockAnalyzer.IsStockRelated` | util/stock_analyzer.py:41-117 | the retry loop with its early returns gives the result and the request count that `Classify` describes |
| `StockAnalysis.Permalink` | util/stock_analyzer.py:168 | the link is empty exactly when the author id or the post id is empty |
| `StockAnalysis.PermalinkRoundTrip` | util/stock_analyzer.py:168 | when both ids are set and the author id holds no '/', both ids can be read back out of the link |
| `StockAnalysis.ChooseFormat` | util/stock_analyzer.py:146-157 | the ISO branch exactly when `created_at` holds a 'T'; otherwise the Weibo branch exactly when it holds a '+' or at least four spaces; otherwise the plain branch |
| `StockAnalysis.DisplayTime` | util/stock_analyzer.py:141-165 | no timestamp gives no time; otherwise the converted time from the chosen branch, or the raw `created_at` when that branch's parse fails |
| `StockAnalysis.WeekdayDecidesBranch` | util/stock_analyzer.py:146-157 | for a Weibo-shaped timestamp, the ISO branch is taken exactly when the weekday holds a 'T' ("Tue", "Thu"); other weekdays reach the Weibo branch; a failed ISO parse then shows the raw string |
| `StockAnalysis.ThursdayTakesIsoBranch` | util/stock_analyzer.py:146-151 | "Thu Dec 18 08:33:17 +0800 2025" takes the ISO branch |
| `StockAnalysis.WednesdayTakesWeiboBranch` | util/stock_analyzer.py:146-151 | "Wed Dec 17 08:33:17 +0800 2025" takes the Weibo branch |
| `StockAnalysis.MessageText` | util/stock_analyzer.py:171-178 | the message is the optional time line, then a newline, the text, then the optional link line: its length is their sum, it starts with the time line, a newline follows, and it ends with the link line |
| `StockAnalysis.StockAnalyzer.AssembleMessage` | util/stock_analyzer.py:170-178 | appending the parts to a list and joining them gives the optional time line, then a newline and the text, then the optional link line |
| `StockAnalysis.MessageStartsWithTime` | util/stock_analyzer.py:171-174 | the message starts with a newline exactly when no time is shown |
| `StockAnalysis.MessageRecoversText` | util/stock_analyzer.py:171-178 | the post text can be read back from the message, between the time line plus its newline and the link line |
| `StockAnalysis.MessageEndsWithLink` | util/stock_analyzer.py:175-176 | when there is a link, the message ends with it |
| `StockAnalysis.Acknowledged` | util/stock_analyzer.py:195-197 | the webhook accepted the message exactly when it answered status 200 with `errcode` 0 |
| `StockAnalysis.StockAnalyzer.PushToWeixin` | util/stock_analyzer.py:119-209 | with no webhook URL nothing is sent and the result is false; otherwise the assembled message is sent; success holds exactly when a webhook is set, the status is 200 and `errcode == 0` |
| `StockAnalysis.Post.constructor` | util/stock_analyzer.py:136-139 | a post record holds its id, text, author id and `created_at` (absent fields as "") and an optional `stock_analysis` entry, all as given |
| `StockAnalysis.Step` | util/stock_analyzer.py:221-259 | one pass over a post: inactive exactly when disabled or the text is empty (record unchanged); duplicate exactly when the non-empty id is known (sentinel only if no entry); otherwise the entry is the classifier result, and a push happens exactly when the post is related and has an id; the set only grows, only by the post's id, and only when that id was new, the post related and its push answered true |
| `StockAnalysis.StockAnalyzer.AnalyzeAndPush` | util/stock_analyzer.py:211-259 | disabled or empty text: record and set unchanged. Known id: no classification or push, set unchanged, sentinel written only when `stock_analysis` is absent. Otherwise `stock_analysis` holds the classifier result, and a push happens exactly when the post is related and has an id; the id is added only after a true push of a related post; the set never shrinks |
| `Dedup.Run` | util/stock_analyzer.py:232-256 | across a stream of posts, one path per post, and the pushed set never shrinks |
| `Dedup.OnlyDeliveredIdsAdded` | util/stock_analyzer.py:252-256 | every id a stream adds to the set belongs to a post in it that was pushed and acknowledged |
| `Dedup.DeliveredIdsRecorded` | util/stock_analyzer.py:252-256 | every post in the stream that was pushed and acknowledged has its id in the final set |
| `Dedup.KnownIdShortCircuits` | util/stock_analyzer.py:221-240 | a post whose non-empty id is already in the set is never classified or pushed, wherever it comes in the stream |
| `Dedup.NoRepeatedPush` | util/stock_analyzer.py:232-256 | after an acknowledged push, every later post with the same id is short-circuited; no id is pushed successfully twice |

## Left out

- The HTTP requests are not modelled: headers, JSON encoding and decoding, timeouts and endpoint URLs. They are replaced by the `Attempt` and `Delivery` inputs.
- The prompt wording, the system message, `temperature` and `max_tokens` are constant request data and are left out. The `text` argument of `IsStockRelated` therefore affects nothing in the model, and `model` is only stored.
- The date and time-zone conversion (`fromisoformat`, `strptime`, `pytz`) is a library call whose behaviour is not modelled. Only the branch choice and the fallback to the raw string are modelled. This includes the `'Z'` to `'+00:00'` rewrite before the ISO parse.
- DisplayTime: the conversion may return an empty string in the model, which the source's `strftime('%Y-%m-%d %H:%M:%S')` never does (line 162); a converted time is not promised to be non-empty, so the model admits a message without a time line for a parsed timestamp.
- Logging is a side effect only and is left out.
- Thread safety of `pushed_weibo_ids` is left out. The code is single-threaded.
- Post ids are modelled as strings. A numeric id (where `0` would be falsy) is not modelled.
- `enabled` is modelled as a boolean. Other truthy values, a `stock_config` that is present but `None`, and a non-integer `max_retries` are not modelled.
- `PushToWeixin`: `errcode` is modelled as an optional integer. Python's `== 0` also accepts `0.0` and `False`, and those are not modelled.
- `Dedup.Run` has no counterpart in the file. It stands for the caller handing posts one by one to the same analyzer.
