/**
  The OneBot group-message notifier (notifiers/onebot.py): reading its
  settings, the request headers, the message texts, and the per-group posting
  loop whose replies are inputs.
*/
module OneBot {
  import opened Models
  import opened Text

  /** Path of the OneBot action that posts a group message. */
  const Endpoint: string := "/send_group_msg"

  /** The id one token gives: its integer if it strips to ASCII digits, else nothing. */
  function TokenId(token: string): seq<nat>
  {
    var t := Strip(token);
    if IsDigits(t) then [DecimalValue(t)] else []
  }

  /** `[y for x in xs for y in f(x)]`: the results of `f` on each element, concatenated in order. */
  function FlatMap<A, B>(f: A -> seq<B>, xs: seq<A>): seq<B>
  {
    if xs == [] then [] else f(xs[0]) + FlatMap(f, xs[1..])
  }

  lemma {:induction false} FlatMapConcat<A, B>(f: A -> seq<B>, a: seq<A>, b: seq<A>)
    ensures FlatMap(f, a + b) == FlatMap(f, a) + FlatMap(f, b)
  {
    if a == [] {
      assert a + b == b;
    } else {
      assert (a + b)[0] == a[0];
      assert (a + b)[1..] == a[1..] + b;
      FlatMapConcat(f, a[1..], b);
    }
  }

  /** Group ids from the tokens of the setting: stripped all-digit tokens, as integers, in order. */
  function ParseTokens(tokens: seq<string>): seq<nat>
  {
    FlatMap(TokenId, tokens)
  }

  /** `[int(gid.strip()) for gid in raw.split(",") if gid.strip().isdigit()]` */
  function ParseGroupIds(raw: string): seq<nat>
  {
    ParseTokens(Split(raw, ','))
  }

  lemma ParseTokensConcat(a: seq<string>, b: seq<string>)
    ensures ParseTokens(a + b) == ParseTokens(a) + ParseTokens(b)
  {
    FlatMapConcat(TokenId, a, b);
  }

  /** The ids before a comma come first, then those after it: order is kept. */
  lemma ParseGroupIdsComma(a: string, b: string)
    ensures ParseGroupIds(a + "," + b) == ParseGroupIds(a) + ParseGroupIds(b)
  {
    SplitConcat(a, b, ',');
    ParseTokensConcat(Split(a, ','), Split(b, ','));
  }

  /** A single comma-free setting gives just the id of that one token. */
  lemma ParseGroupIdsToken(t: string)
    requires ',' !in t
    ensures ParseGroupIds(t) == TokenId(t)
  {
    SplitWithoutSep(t, ',');
    assert FlatMap(TokenId, [t]) == TokenId(t) + FlatMap(TokenId, []);
  }

  /** The decimal text of a number reads back as that number. */
  lemma TokenIdOfNat(n: nat)
    ensures TokenId(NatToString(n)) == [n]
  {
    var t := NatToString(n);
    assert IsDigit(t[0]) && IsDigit(t[|t| - 1]);
    StripUnpadded(t);
    DecimalValueOfNatToString(n);
  }

  /** Leading zeros are read away: `"007"` gives the id 7. */
  lemma TokenIdZeroPadded(k: nat, n: nat)
    ensures TokenId(Zeros(k) + NatToString(n)) == [n]
  {
    var t := Zeros(k) + NatToString(n);
    ZerosThenDigits(k, n);
    assert IsDigit(t[0]) && IsDigit(t[|t| - 1]);
    StripUnpadded(t);
    ZerosValue(k, NatToString(n));
    DecimalValueOfNatToString(n);
  }

  /** A token with any character that is neither a digit nor whitespace gives no id. */
  lemma TokenIdRejects(token: string, i: nat)
    requires i < |token| && token[i] !in Whitespace && !IsDigit(token[i])
    ensures TokenId(token) == []
  {
    var j := StripKeeps(token, i);
  }

  /** A setting holding one number, written out, gives exactly that id. */
  lemma ParseGroupIdsOfNat(n: nat)
    ensures ParseGroupIds(NatToString(n)) == [n]
  {
    var t := NatToString(n);
    assert ',' !in t by {
      forall i | 0 <= i < |t| ensures t[i] != ',' { assert IsDigit(t[i]); }
    }
    ParseGroupIdsToken(t);
    TokenIdOfNat(n);
  }

  /** `_headers`: the JSON content type, plus a bearer token when one is set. */
  function Headers(accessToken: string): (h: map<string, string>)
    ensures h.Keys == if accessToken == "" then {"Content-Type"} else {"Content-Type", "Authorization"}
    ensures h["Content-Type"] == "application/json"
    ensures accessToken != "" ==> h["Authorization"] == "Bearer " + accessToken
  {
    var base := map["Content-Type" := "application/json"];
    if accessToken != "" then base["Authorization" := "Bearer " + accessToken] else base
  }

  /** A decoded JSON reply body. */
  datatype Json =
    | JNull
    | JBool(b: bool)
    | JNumber(n: real)
    | JString(s: string)
    | JArray(items: seq<Json>)
    | JObject(fields: map<string, Json>)

  /** What one `requests.post(...).json()` did: raised, or gave a body. */
  datatype PostOutcome = PostRaised | Replied(body: Json)

  /** Python's `v == 0`, which also holds for `0.0` and `False`. */
  predicate EqualsZero(v: Json)
  {
    v == JNumber(0.0) || v == JBool(false)
  }

  /** `result.get("status") == "ok" or result.get("retcode") == 0` on an object. */
  predicate ReportsSuccess(result: Json)
    requires result.JObject?
  {
    ("status" in result.fields && result.fields["status"] == JString("ok")) ||
    ("retcode" in result.fields && EqualsZero(result.fields["retcode"]))
  }

  /**
    A post counts as delivered when it did not raise and its body is an object
    reporting success (`.get` on any other body raises, which also counts as failure).
  */
  predicate Delivered(o: PostOutcome)
  {
    o.Replied? && o.body.JObject? && ReportsSuccess(o.body)
  }

  /** Every one of the first `n` posts was delivered. */
  predicate AllDelivered(respond: nat -> PostOutcome, n: nat)
  {
    forall i :: 0 <= i < n ==> Delivered(respond(i))
  }

  /** One HTTP post: endpoint, headers and the JSON body's two fields. */
  datatype Post = Post(url: string, headers: map<string, string>, groupId: nat, message: string)

  /** The first line of a `send` message. */
  function SendHeader(displayName: string, count: nat): string
  {
    "【" + displayName + "新通知（" + NatToString(count) + "条）】\n"
  }

  /** The block for one notice: date, two spaces, title, then the url. */
  function NoticeBlock(n: Notice): string
  {
    n.date + "  " + n.title + "\n" + n.url + "\n"
  }

  function Blocks(notices: seq<Notice>): seq<string>
  {
    seq(|notices|, i requires 0 <= i < |notices| => NoticeBlock(notices[i]))
  }

  /** The `send` message: header, then one block per notice, joined by newlines. */
  function SendText(displayName: string, notices: seq<Notice>): string
  {
    Join([SendHeader(displayName, |notices|)] + Blocks(notices), '\n')
  }

  /** The `test` message. */
  function TestText(displayName: string): string
  {
    "【" + displayName + "监控】初始化测试成功，监控服务已启动。"
  }

  /** `part` occurs in `whole` starting at position `k`. */
  predicate OccursAt(part: string, whole: string, k: int)
  {
    0 <= k <= |whole| - |part| && whole[k..k + |part|] == part
  }

  predicate IsInfix(part: string, whole: string)
  {
    exists k :: 0 <= k <= |whole| && OccursAt(part, whole, k)
  }

  /** The `send` message starts with the header, whose count is the number of notices. */
  lemma SendTextHeader(displayName: string, notices: seq<Notice>)
    ensures var h := SendHeader(displayName, |notices|);
      |h| <= |SendText(displayName, notices)| && SendText(displayName, notices)[..|h|] == h
    ensures DecimalValue(NatToString(|notices|)) == |notices|
  {
    JoinPartAt([SendHeader(displayName, |notices|)] + Blocks(notices), '\n', 0);
    DecimalValueOfNatToString(|notices|);
  }

  /** Each notice's block, and so its date, title and url, appears in the `send` message. */
  lemma SendTextMentionsEveryNotice(displayName: string, notices: seq<Notice>, j: nat)
    requires j < |notices|
    ensures IsInfix(NoticeBlock(notices[j]), SendText(displayName, notices))
    ensures IsInfix(notices[j].url, SendText(displayName, notices))
  {
    var parts := [SendHeader(displayName, |notices|)] + Blocks(notices);
    assert parts[j + 1] == NoticeBlock(notices[j]);
    JoinPartAt(parts, '\n', j + 1);
    var k := PartOffset(parts, j + 1);
    assert OccursAt(NoticeBlock(notices[j]), SendText(displayName, notices), k);
    var u := UrlInBlock(notices[j]);
    OccursWithin(notices[j].url, NoticeBlock(notices[j]), SendText(displayName, notices), u, k);
  }

  /** Where a notice's url sits inside its block. */
  lemma UrlInBlock(n: Notice) returns (u: nat)
    ensures OccursAt(n.url, NoticeBlock(n), u)
  {
    u := |n.date| + 2 + |n.title| + 1;
    assert NoticeBlock(n) == (n.date + "  " + n.title + "\n") + n.url + "\n";
  }

  /** An occurrence inside an occurrence is an occurrence. */
  lemma OccursWithin(part: string, middle: string, whole: string, i: int, k: int)
    requires OccursAt(part, middle, i) && OccursAt(middle, whole, k)
    ensures OccursAt(part, whole, k + i)
  {
    forall m | 0 <= m < |part|
      ensures whole[k + i..k + i + |part|][m] == part[m]
    {
      assert part[m] == middle[i + m] == whole[k + i + m];
    }
  }

  /** Without notices the `send` message is the header alone. */
  lemma SendTextOfNothing(displayName: string)
    ensures SendText(displayName, []) == SendHeader(displayName, 0)
  {
    assert [SendHeader(displayName, 0)] + Blocks([]) == [SendHeader(displayName, 0)];
  }

  /** `OneBotNotifier` */
  class OneBotNotifier {
    const name: string
    var httpUrl: string
    var accessToken: string
    var groupIds: seq<nat>

    /** `__init__`, with the three environment settings passed in ("" when unset). */
    constructor(urlSetting: string, tokenSetting: string, groupSetting: string)
      ensures name == "onebot"
      ensures httpUrl == TrimRight(urlSetting, {'/'})
      ensures accessToken == tokenSetting
      ensures groupIds == ParseGroupIds(groupSetting)
    {
      name := "onebot";
      httpUrl := TrimRight(urlSetting, {'/'});
      accessToken := tokenSetting;
      groupIds := ParseGroupIds(groupSetting);
    }

    predicate Configured()
      reads this
    {
      httpUrl != "" && groupIds != []
    }

    /** The posts for `message`: one per group, in order, to the endpoint with the headers. */
    function Deliveries(message: string): (posts: seq<Post>)
      reads this
    {
      var ids, url, headers := groupIds, httpUrl + Endpoint, Headers(accessToken);
      seq(|ids|, i requires 0 <= i < |ids| => Post(url, headers, ids[i], message))
    }

    /**
      `_send_to_groups`: nothing is posted when unconfigured; otherwise one post
      per group, continuing after failures; True iff every post was delivered.
      `respond(i)` is what the i-th post did.
    */
    method SendToGroups(message: string, respond: nat -> PostOutcome) returns (ok: bool, posts: seq<Post>)
      ensures !Configured() ==> !ok && posts == []
      ensures Configured() ==> posts == Deliveries(message) && (ok <==> AllDelivered(respond, |groupIds|))
    {
      if httpUrl == "" || groupIds == [] {
        return false, [];
      }
      var apiUrl := httpUrl + Endpoint;
      var headers := Headers(accessToken);
      ok, posts := true, [];
      var i := 0;
      while i < |groupIds|
        invariant 0 <= i <= |groupIds|
        invariant |posts| == i
        invariant forall k :: 0 <= k < i ==> posts[k] == Post(apiUrl, headers, groupIds[k], message)
        invariant ok <==> AllDelivered(respond, i)
      {
        posts := posts + [Post(apiUrl, headers, groupIds[i], message)];
        match respond(i) {
          case PostRaised =>
            ok := false;
          case Replied(result) =>
            if !result.JObject? || !ReportsSuccess(result) {
              ok := false;
            }
        }
        i := i + 1;
      }
      assert posts == Deliveries(message);
    }

    /** `send`: the formatted message to every group. */
    method Send(displayName: string, notices: seq<Notice>, respond: nat -> PostOutcome) returns (ok: bool, posts: seq<Post>)
      ensures !Configured() ==> !ok && posts == []
      ensures Configured() ==>
        posts == Deliveries(SendText(displayName, notices)) && (ok <==> AllDelivered(respond, |groupIds|))
    {
      ok, posts := SendToGroups(SendText(displayName, notices), respond);
    }

    /** `test`: False without posting when unconfigured, else the test message to every group. */
    method Test(displayName: string, respond: nat -> PostOutcome) returns (ok: bool, posts: seq<Post>)
      ensures !Configured() ==> !ok && posts == []
      ensures Configured() ==>
        posts == Deliveries(TestText(displayName)) && (ok <==> AllDelivered(respond, |groupIds|))
    {
      if httpUrl == "" || groupIds == [] {
        return false, [];
      }
      ok, posts := SendToGroups(TestText(displayName), respond);
    }
  }
}
