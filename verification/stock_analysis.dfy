/**
 * The Weibo stock-content analyzer: it asks a language model whether a post is
 * about stocks, pushes related posts to a WeCom (企业微信) webhook, and remembers
 * which post ids were pushed successfully so that no post is pushed successfully
 * twice; a post whose push failed is classified and pushed again when it returns.
 *
 * Every network call is replaced by its outcome, given as an input:
 *  - the classifier endpoint by a sequence of `Attempt`s, one per request;
 *  - the webhook by one `Delivery`;
 *  - the date conversion by a function from the chosen `TimeFormat` and the raw
 *    string to the rendered Beijing time, or `None` when parsing fails.
 * Absent fields of a post are modelled as "", since every read of them either
 * defaults to '' or only tests truthiness.
 */
module StockAnalysis {

  import opened Wrappers
  import opened Text

  // ----- Configuration ------------------------------------------------------

  const DefaultModel := "glm-4-flash"
  const DefaultMaxRetries := 3

  /** The `stock_config` section as given: each field may be absent. */
  datatype StockConfig = StockConfig(
    enabled: Option<bool>,
    zhipuApiKey: Option<string>,
    webhookUrl: Option<string>,
    model: Option<string>,
    maxRetries: Option<int>)

  /** A missing `stock_config` section reads as an empty one. */
  const EmptySection := StockConfig(None, None, None, None, None)

  /** The analyzer's configuration after defaults are applied. */
  datatype Settings = Settings(
    enabled: bool,
    apiKey: Option<string>,
    webhookUrl: Option<string>,
    model: string,
    maxRetries: int)

  /** Applies the defaults of the constructor: disabled, "glm-4-flash", 3 retries. */
  function SettingsOf(section: StockConfig): (s: Settings)
    ensures s.enabled <==> section.enabled == Some(true)
    ensures s.apiKey == section.zhipuApiKey && s.webhookUrl == section.webhookUrl
    ensures section.model.Some? ==> s.model == section.model.value
    ensures section.model.None? ==> s.model == DefaultModel
    ensures section.maxRetries.Some? ==> s.maxRetries == section.maxRetries.value
    ensures section.maxRetries.None? ==> s.maxRetries == DefaultMaxRetries
  {
    Settings(section.enabled.GetOr(false), section.zhipuApiKey, section.webhookUrl,
             section.model.GetOr(DefaultModel), section.maxRetries.GetOr(DefaultMaxRetries))
  }

  /** Python truthiness of an optional string: present and non-empty. */
  predicate Truthy(o: Option<string>) {
    o.Some? && o.value != ""
  }

  /** Classification is attempted only when enabled and an API key is set. */
  predicate CanClassify(s: Settings) {
    s.enabled && Truthy(s.apiKey)
  }

  /** Pushing is attempted only when a webhook URL is set. */
  predicate HasWebhook(s: Settings) {
    Truthy(s.webhookUrl)
  }

  /** The number of iterations of `range(max_retries)`. */
  function Budget(s: Settings): nat {
    if s.maxRetries > 0 then s.maxRetries else 0
  }

  // ----- Relevance classification -------------------------------------------

  /** The reply the model gives for a post that is not stock related. */
  const NotRelevantMarker := "不相关"

  /** The classification result attached to a post as `stock_analysis`. */
  datatype Analysis = Analysis(isStockRelated: bool, analysis: string)

  /** The result of a classification that gave up or was never attempted. */
  const NotRelated := Analysis(false, "")

  /** The marker attached to a post whose id was already pushed. */
  const AlreadyPushed := Analysis(true, "(已推送，跳过重复分析)")

  /**
   * What one request to the language model yields: the reply text when the
   * status is 200 and the body holds `choices[0].message.content`, or a fault
   * (another status, a transport error, a malformed body).
   */
  datatype Attempt = Reply(content: string) | Fault

  /** The outcome of the request with index `i`; requests beyond the list fault. */
  function AttemptAt(outcomes: seq<Attempt>, i: nat): Attempt {
    if i < |outcomes| then outcomes[i] else Fault
  }

  /**
   * The relevance rule applied to one reply: the analysis is the stripped reply,
   * and the post is related exactly when the marker occurs nowhere in the reply.
   */
  function Verdict(reply: string): (a: Analysis)
    ensures a.isStockRelated <==> !Contains(reply, NotRelevantMarker)
    ensures a.analysis == Strip(reply)
  {
    StripKeepsOccurrences(reply, NotRelevantMarker);
    var analysis := Strip(reply);
    Analysis(!Contains(analysis, NotRelevantMarker), analysis)
  }

  /** The index of the first reply among the requests `from .. limit - 1`. */
  function FirstReply(outcomes: seq<Attempt>, from: nat, limit: int): (r: Option<nat>)
    ensures r.Some? ==> from <= r.value < limit && AttemptAt(outcomes, r.value).Reply?
    ensures forall j :: from <= j < limit && (r.None? || j < r.value) ==> AttemptAt(outcomes, j) == Fault
    decreases limit - from
  {
    if from >= limit then None
    else if AttemptAt(outcomes, from).Reply? then Some(from)
    else FirstReply(outcomes, from + 1, limit)
  }

  /** What `is_stock_related` returns, together with the number of requests it made. */
  datatype Classification = Classification(result: Analysis, calls: nat)

  /**
   * The retry rule: at most `max_retries` requests, none when classification is
   * switched off; the first reply decides; when every request faults the post
   * counts as not related.
   */
  function Classify(s: Settings, outcomes: seq<Attempt>): (c: Classification)
    ensures !CanClassify(s) ==> c == Classification(NotRelated, 0)
    ensures c.calls <= Budget(s)
    ensures forall j :: 0 <= j < c.calls - 1 ==> AttemptAt(outcomes, j) == Fault
    ensures c.calls > 0 && AttemptAt(outcomes, c.calls - 1).Reply? ==>
              c.result == Verdict(AttemptAt(outcomes, c.calls - 1).content)
    ensures CanClassify(s) && !(c.calls > 0 && AttemptAt(outcomes, c.calls - 1).Reply?) ==>
              c == Classification(NotRelated, Budget(s))
  {
    if !CanClassify(s) then Classification(NotRelated, 0)
    else match FirstReply(outcomes, 0, s.maxRetries)
      case Some(i) => Classification(Verdict(AttemptAt(outcomes, i).content), i + 1)
      case None => Classification(NotRelated, Budget(s))
  }

  // ----- Notification -------------------------------------------------------

  const PermalinkPrefix := "https://weibo.com/"
  const TimeLabel := "发博时间: "
  const LinkLabel := "\n\n链接: "

  /** The post's link, built only when both the author id and the post id are set. */
  function Permalink(userId: string, id: string): (url: string)
    ensures url == "" <==> userId == "" || id == ""
  {
    if userId != "" && id != "" then PermalinkPrefix + userId + "/" + id else ""
  }

  /** Reads the author id and post id back out of a permalink. */
  function SplitPermalink(url: string): Option<(string, string)> {
    if |url| < |PermalinkPrefix| || url[..|PermalinkPrefix|] != PermalinkPrefix then None
    else
      var rest := url[|PermalinkPrefix|..];
      match IndexOf(rest, '/')
      case Some(k) => Some((rest[..k], rest[k + 1..]))
      case None => None
  }

  /** The permalink determines both ids when the author id holds no '/'. */
  lemma PermalinkRoundTrip(userId: string, id: string)
    requires userId != "" && id != "" && '/' !in userId
    ensures SplitPermalink(Permalink(userId, id)) == Some((userId, id))
  {
    var url := Permalink(userId, id);
    assert url[..|PermalinkPrefix|] == PermalinkPrefix;
    var rest := url[|PermalinkPrefix|..];
    assert rest == userId + "/" + id;
    assert rest[|userId|] == '/';
    assert rest[..|userId|] == userId;
    IndexOfAfterFree(userId, '/', id);
    assert rest[|userId| + 1..] == id;
  }

  /** The three shapes of `created_at` the source tells apart. */
  datatype TimeFormat =
    | IsoFormat      // "2025-12-16T10:00:00", optionally ending in 'Z'
    | WeiboFormat    // "Wed Dec 17 08:33:17 +0800 2025"
    | PlainFormat    // "2025-12-16 10:00:00", taken as Beijing time

  /**
   * The branch taken for a timestamp. The test for 'T' comes first, so a
   * Weibo-style timestamp whose weekday is "Tue" or "Thu" takes the ISO branch.
   */
  function ChooseFormat(createdAt: string): (f: TimeFormat)
    ensures f == IsoFormat <==> 'T' in createdAt
    ensures f == WeiboFormat <==> 'T' !in createdAt && ('+' in createdAt || Count(createdAt, ' ') >= 4)
    ensures f == PlainFormat <==> 'T' !in createdAt && '+' !in createdAt && Count(createdAt, ' ') < 4
  {
    if 'T' in createdAt then IsoFormat
    else if '+' in createdAt || Count(createdAt, ' ') >= 4 then WeiboFormat
    else PlainFormat
  }

  /**
   * The time shown in the message: "" when there is no timestamp, the converted
   * Beijing time when the chosen branch parses it, and the raw string otherwise.
   */
  function DisplayTime(createdAt: string, convert: (TimeFormat, string) -> Option<string>): (t: string)
    ensures createdAt == "" ==> t == ""
    ensures createdAt != "" && convert(ChooseFormat(createdAt), createdAt).None? ==> t == createdAt
    ensures createdAt != "" && convert(ChooseFormat(createdAt), createdAt).Some? ==>
              t == convert(ChooseFormat(createdAt), createdAt).value
  {
    if createdAt == "" then ""
    else convert(ChooseFormat(createdAt), createdAt).GetOr(createdAt)
  }

  /**
   * A timestamp of the Weibo shape "<weekday> <rest>" takes the ISO branch exactly
   * when the weekday holds a 'T'; so for "Tue" and "Thu" a failed ISO parse shows
   * the raw string, while other weekdays reach the Weibo branch.
   */
  lemma WeekdayDecidesBranch(weekday: string, rest: string, convert: (TimeFormat, string) -> Option<string>)
    requires 'T' !in rest && Count(rest, ' ') >= 3
    ensures var s := weekday + " " + rest;
      && (ChooseFormat(s) == IsoFormat <==> 'T' in weekday)
      && ('T' !in weekday ==> ChooseFormat(s) == WeiboFormat)
      && ('T' in weekday && convert(IsoFormat, s).None? ==> DisplayTime(s, convert) == s)
  {
    var s := weekday + " " + rest;
    assert s == weekday + ([' '] + rest);
    CountAppend(weekday, [' '] + rest, ' ');
    CountAppend([' '], rest, ' ');
    InConcat(weekday, [' '] + rest, 'T');
    InConcat([' '], rest, 'T');
  }

  /** A Thursday timestamp in Weibo's format takes the ISO branch. */
  lemma ThursdayTakesIsoBranch()
    ensures ChooseFormat("Thu Dec 18 08:33:17 +0800 2025") == IsoFormat
  {
    assert "Thu Dec 18 08:33:17 +0800 2025"[0] == 'T';
  }

  /** A Wednesday timestamp in Weibo's format takes the Weibo branch. */
  lemma WednesdayTakesWeiboBranch()
    ensures ChooseFormat("Wed Dec 17 08:33:17 +0800 2025") == WeiboFormat
  {
    var s := "Wed Dec 17 08:33:17 +0800 2025";
    assert s[20] == '+';
    forall i | 0 <= i < |s| ensures s[i] != 'T' {
    }
  }

  /** The first line of the message, present only when there is a time to show. */
  function TimeLine(time: string): string {
    if time != "" then TimeLabel + time else ""
  }

  /** The last line of the message, present only when there is a link. */
  function LinkLine(url: string): string {
    if url != "" then LinkLabel + url else ""
  }

  /** The message text: optional time line, the post text on a new line, optional link. */
  function MessageText(time: string, text: string, url: string): (m: string)
    ensures |m| == |TimeLine(time)| + 1 + |text| + |LinkLine(url)|
    ensures m[..|TimeLine(time)|] == TimeLine(time)
    ensures m[|TimeLine(time)|] == '\n'
    ensures m[|m| - |LinkLine(url)|..] == LinkLine(url)
  {
    TimeLine(time) + "\n" + text + LinkLine(url)
  }

  /** The message starts with a newline exactly when no time is shown. */
  lemma MessageStartsWithTime(time: string, text: string, url: string)
    ensures MessageText(time, text, url)[0] == '\n' <==> time == ""
  {
    var m := MessageText(time, text, url);
    if time != "" {
      assert m[0] == TimeLine(time)[0] == TimeLabel[0] == '发';
    } else {
      assert m == "\n" + text + LinkLine(url);
    }
  }

  /**
   * The message can be taken apart again: the post text is what lies between
   * the time line plus its newline and the link line.
   */
  lemma MessageRecoversText(time: string, text: string, url: string)
    ensures |TimeLine(time)| + 1 + |text| + |LinkLine(url)| == |MessageText(time, text, url)|
    ensures MessageText(time, text, url)[|TimeLine(time)| + 1..|TimeLine(time)| + 1 + |text|] == text
  {
    var head, tail := TimeLine(time) + "\n", LinkLine(url);
    assert MessageText(time, text, url) == head + text + tail;
    PartsOfConcat(head, text, tail);
  }

  /** When there is a link, the message ends with it. */
  lemma MessageEndsWithLink(time: string, text: string, url: string)
    requires url != ""
    ensures |url| <= |MessageText(time, text, url)|
    ensures MessageText(time, text, url)[|MessageText(time, text, url)| - |url|..] == url
  {
    var head := TimeLine(time) + "\n" + text;
    assert MessageText(time, text, url) == head + LinkLabel + url;
    PartsOfConcat(head, LinkLabel, url);
  }

  /** The answer of the webhook: a status code and the `errcode` field, if the body has one. */
  datatype Delivery = Answered(status: int, errcode: Option<int>) | TransportFault

  /** The webhook accepted the message: status 200 and `errcode == 0`. */
  predicate Acknowledged(d: Delivery): (ok: bool)
    ensures ok <==> d == Answered(200, Some(0))
  {
    d.Answered? && d.status == 200 && d.errcode == Some(0)
  }

  // ----- Posts and the analyzer ---------------------------------------------

  /** A post record; the analyzer writes only its `stock_analysis` entry. */
  class Post {
    const id: string
    const text: string
    const userId: string
    const createdAt: string
    var stockAnalysis: Option<Analysis>

    constructor (id: string, text: string, userId: string, createdAt: string, stockAnalysis: Option<Analysis>)
      ensures this.id == id && this.text == text && this.userId == userId
      ensures this.createdAt == createdAt && this.stockAnalysis == stockAnalysis
    {
      this.id, this.text, this.userId, this.createdAt := id, text, userId, createdAt;
      this.stockAnalysis := stockAnalysis;
    }
  }

  /** Which collaborators one call of `AnalyzeAndPush` used, and what they answered. */
  datatype Path =
    | Inactive                                        // analyzer off or empty text
    | Duplicate                                       // id already pushed
    | Classified(result: Analysis, push: Option<bool>) // classifier ran; push result if it pushed

  /** The new pushed-id set, `stock_analysis` entry and path of one call. */
  datatype StepOutcome = StepOutcome(path: Path, pushed: set<string>, stockAnalysis: Option<Analysis>)

  /**
   * One pass of the orchestrator over a post, given what the classifier would
   * answer (`verdict`) and what a push would answer (`delivered`). The set only
   * grows, and only by the post's id, and only after a push answered true.
   */
  function Step(enabled: bool, pushed: set<string>, id: string, text: string,
                prior: Option<Analysis>, verdict: Analysis, delivered: bool): (o: StepOutcome)
    ensures pushed <= o.pushed <= pushed + {id}
    ensures o.pushed != pushed ==>
              o.path == Classified(verdict, Some(true)) && verdict.isStockRelated && id != "" && id !in pushed
    ensures o.path == Inactive <==> !enabled || text == ""
    ensures o.path == Inactive ==> o.stockAnalysis == prior
    ensures o.path == Duplicate <==> enabled && text != "" && id != "" && id in pushed
    ensures o.path == Duplicate ==> o.stockAnalysis == (if prior.None? then Some(AlreadyPushed) else prior)
    ensures o.path.Classified? ==> o.path.result == verdict && o.stockAnalysis == Some(verdict)
    ensures o.path.Classified? && o.path.push.Some? <==>
              enabled && text != "" && id != "" && id !in pushed && verdict.isStockRelated
    ensures o.path.Classified? && o.path.push.Some? ==> o.path.push == Some(delivered)
  {
    if !enabled || text == "" then StepOutcome(Inactive, pushed, prior)
    else if id != "" && id in pushed then
      StepOutcome(Duplicate, pushed, if prior.None? then Some(AlreadyPushed) else prior)
    else if verdict.isStockRelated && id != "" then
      StepOutcome(Classified(verdict, Some(delivered)), if delivered then pushed + {id} else pushed, Some(verdict))
    else StepOutcome(Classified(verdict, None), pushed, Some(verdict))
  }

  /** The analyzer: fixed settings and the set of ids pushed so far. */
  class StockAnalyzer {
    const settings: Settings
    var pushedIds: set<string>

    /** Reads the `stock_config` section (absent: empty) and starts with nothing pushed. */
    constructor (stockConfig: Option<StockConfig>)
      ensures settings == SettingsOf(stockConfig.GetOr(EmptySection))
      ensures pushedIds == {}
    {
      settings := SettingsOf(stockConfig.GetOr(EmptySection));
      pushedIds := {};
    }

    /**
     * Asks the model about `text` (which only enters the prompt), trying up to
     * `max_retries` times; `calls` is the number of requests made.
     */
    method IsStockRelated(text: string, outcomes: seq<Attempt>) returns (result: Analysis, calls: nat)
      ensures Classification(result, calls) == Classify(settings, outcomes)
    {
      if !CanClassify(settings) {
        return NotRelated, 0;
      }
      calls := 0;
      var attempt := 0;
      while attempt < settings.maxRetries
        invariant 0 <= attempt <= Budget(settings)
        invariant calls == attempt
        invariant FirstReply(outcomes, attempt, settings.maxRetries) == FirstReply(outcomes, 0, settings.maxRetries)
      {
        calls := calls + 1;
        match AttemptAt(outcomes, attempt)
        case Reply(content) =>
          var analysis := Strip(content);
          var isRelated := !Contains(analysis, NotRelevantMarker);
          return Analysis(isRelated, analysis), calls;
        case Fault =>
          if attempt < settings.maxRetries - 1 {
            attempt := attempt + 1;
            continue;
          }
          return NotRelated, calls;
      }
      return NotRelated, calls;
    }

    /** Builds the message by appending its parts to a list and joining them. */
    static method AssembleMessage(time: string, text: string, url: string) returns (message: string)
      ensures message == MessageText(time, text, url)
    {
      var parts: seq<string> := [];
      if time != "" {
        JoinAppend(parts, TimeLabel + time);
        parts := parts + [TimeLabel + time];
      }
      JoinAppend(parts, "\n" + text);
      parts := parts + ["\n" + text];
      if url != "" {
        JoinAppend(parts, LinkLabel + url);
        parts := parts + [LinkLabel + url];
      }
      message := Join(parts);
    }

    /**
     * Sends `post` to the webhook. `content` is unused, as in the source. `sent`
     * is the message posted, or None when no webhook is configured; `ok` holds
     * exactly when a webhook is configured and it acknowledged the message.
     */
    method PushToWeixin(content: string, post: Post, convert: (TimeFormat, string) -> Option<string>,
                        delivery: Delivery) returns (ok: bool, sent: Option<string>)
      ensures ok <==> HasWebhook(settings) && Acknowledged(delivery)
      ensures ok ==> sent.Some?
      ensures sent.Some? <==> HasWebhook(settings)
      ensures sent.Some? ==>
                sent.value == MessageText(DisplayTime(post.createdAt, convert), post.text,
                                          Permalink(post.userId, post.id))
    {
      if !Truthy(settings.webhookUrl) {
        return false, None;
      }
      var time := DisplayTime(post.createdAt, convert);
      var url := Permalink(post.userId, post.id);
      var message := AssembleMessage(time, post.text, url);
      sent := Some(message);
      match delivery
      case Answered(status, errcode) =>
        if status == 200 {
          ok := errcode == Some(0);
        } else {
          ok := false;
        }
      case TransportFault =>
        ok := false;
    }

    /**
     * Classifies `post` and pushes it when related, unless the analyzer is off,
     * the text is empty, or the id was pushed before. Returns the same record.
     */
    method AnalyzeAndPush(post: Post, outcomes: seq<Attempt>, convert: (TimeFormat, string) -> Option<string>,
                          delivery: Delivery) returns (r: Post, path: Path)
      modifies this, post
      ensures r == post
      ensures var o := Step(settings.enabled, old(pushedIds), post.id, post.text, old(post.stockAnalysis),
                            Classify(settings, outcomes).result, HasWebhook(settings) && Acknowledged(delivery));
              path == o.path && pushedIds == o.pushed && post.stockAnalysis == o.stockAnalysis
      ensures !settings.enabled || post.text == "" ==>
                path == Inactive && pushedIds == old(pushedIds) && post.stockAnalysis == old(post.stockAnalysis)
      ensures settings.enabled && post.text != "" && post.id != "" && post.id in old(pushedIds) ==>
                path == Duplicate && pushedIds == old(pushedIds) &&
                post.stockAnalysis == (if old(post.stockAnalysis).None? then Some(AlreadyPushed) else old(post.stockAnalysis))
      ensures path.Classified? ==> post.stockAnalysis == Some(path.result)
      ensures path.Classified? ==> (path.push.Some? <==> path.result.isStockRelated && post.id != "")
      ensures old(pushedIds) <= pushedIds
      ensures pushedIds != old(pushedIds) ==>
                path.Classified? && path.push == Some(true) && path.result.isStockRelated &&
                pushedIds == old(pushedIds) + {post.id}
    {
      r := post;
      if !settings.enabled {
        return r, Inactive;
      }
      var text := post.text;
      if text == "" {
        return r, Inactive;
      }
      var id := post.id;
      if id != "" && id in pushedIds {
        if post.stockAnalysis.None? {
          post.stockAnalysis := Some(AlreadyPushed);
        }
        return r, Duplicate;
      }
      var result, _ := IsStockRelated(text, outcomes);
      post.stockAnalysis := Some(result);
      path := Classified(result, None);
      if result.isStockRelated && id != "" {
        var success, _ := PushToWeixin(result.analysis, post, convert, delivery);
        if success {
          pushedIds := pushedIds + {id};
        }
        path := Classified(result, Some(success));
      }
    }
  }
}
