/** The text content manager of the site (js/text.js): it fetches a quote
    ("hitokoto") and a poem from ordered lists of endpoints, falls back to
    static content when every endpoint fails, caches the last value of each,
    and notifies the callbacks registered for quote updates.

    The network is a parameter: for each endpoint, the response it would give
    if it were requested. `Math.random()` is a parameter `r` in [0,1). */
module TextManager {
  import opened Common

  // ---------------------------------------------------------------------------
  // JSON values as the parsers see them
  // ---------------------------------------------------------------------------

  /** The value of a field of a decoded JSON object: missing (`undefined`),
      `null`, a string, or any other JSON value (a number, a boolean, an array
      or an object), given by its JavaScript truthiness (false for `0` and
      `false`) and the string that a template literal or `+` makes of it. */
  datatype JsValue = Undefined | Null | Str(s: string) | Other(truthy: bool, text: string)

  /** JavaScript truthiness of such a value: a non-empty string, or another
      value that is truthy. */
  predicate Truthy(v: JsValue)
  {
    || (v.Str? && v.s != "")
    || (v.Other? && v.truthy)
  }

  /** The conversion a template literal `${v}` or `+` applies to the value. */
  function ToText(v: JsValue): string
  {
    match v
    case Undefined => "undefined"
    case Null => "null"
    case Str(s) => s
    case Other(_, text) => text
  }

  /** What `await response.json()` yields: a body that is not JSON (the call
      throws), the JSON `null`, or an object. A JSON number, string or array
      behaves like an object without the fields the parsers read. */
  datatype Payload = Malformed | JsonNull | JsonObject(fields: map<string, JsValue>)

  /** Property access `data.key`. */
  function Field(fields: map<string, JsValue>, key: string): JsValue
  {
    if key in fields then fields[key] else Undefined
  }

  // ---------------------------------------------------------------------------
  // String.prototype.trim
  // ---------------------------------------------------------------------------

  /** The characters ECMAScript's `trim` removes: WhiteSpace and
      LineTerminator (section 12.2 and 12.3 of ECMA-262). */
  predicate IsWhiteSpace(c: char)
  {
    || c == '\t' || c == '\n' || c == '\U{B}' || c == '\U{C}' || c == '\r'
    || c == ' ' || c == '\U{A0}' || c == '\U{1680}'
    || ('\U{2000}' <= c <= '\U{200A}')
    || c == '\U{2028}' || c == '\U{2029}' || c == '\U{202F}' || c == '\U{205F}'
    || c == '\U{3000}' || c == '\U{FEFF}'
  }

  predicate AllWhiteSpace(s: string)
  {
    forall i :: 0 <= i < |s| ==> IsWhiteSpace(s[i])
  }

  /** No whitespace at either end. */
  predicate Trimmed(s: string)
  {
    s == [] || (!IsWhiteSpace(s[0]) && !IsWhiteSpace(s[|s| - 1]))
  }

  /** The suffix of `s` left after dropping its leading whitespace. */
  function TrimStart(s: string): (r: string)
    ensures |r| <= |s| && r == s[|s| - |r|..]
    ensures AllWhiteSpace(s[..|s| - |r|])
    ensures r == [] || !IsWhiteSpace(r[0])
  {
    if s != [] && IsWhiteSpace(s[0]) then
      var p := s[1..];
      var r := TrimStart(p);
      assert p[|p| - |r|..] == s[|s| - |r|..];
      assert s[..|s| - |r|] == [s[0]] + p[..|p| - |r|];
      r
    else s
  }

  /** The prefix of `s` left after dropping its trailing whitespace. */
  function TrimEnd(s: string): (r: string)
    ensures |r| <= |s| && r == s[..|r|]
    ensures AllWhiteSpace(s[|r|..])
    ensures r == [] || !IsWhiteSpace(r[|r| - 1])
  {
    if s != [] && IsWhiteSpace(s[|s| - 1]) then
      var p := s[..|s| - 1];
      var r := TrimEnd(p);
      assert p[..|r|] == s[..|r|];
      assert s[|r|..] == p[|r|..] + [s[|s| - 1]];
      r
    else s
  }

  /** `s.trim()`: the infix of `s` that remains when the whitespace at both ends
      is removed. */
  function Trim(s: string): (r: string)
    ensures Trimmed(r)
    ensures exists i, j :: 0 <= i <= j <= |s| && r == s[i..j]
                           && AllWhiteSpace(s[..i]) && AllWhiteSpace(s[j..])
  {
    var t := TrimStart(s);
    var r := TrimEnd(t);
    var i := |s| - |t|;
    SliceOfSuffix(s, t, |r|);
    assert r == s[i..i + |r|] && s[i + |r|..] == t[|r|..];
    assert r != [] ==> r[0] == t[0];
    r
  }

  /** Cutting a suffix `t` of `s` at `k` is cutting `s` at the matching place. */
  lemma SliceOfSuffix(s: string, t: string, k: nat)
    requires |t| <= |s| && t == s[|s| - |t|..] && k <= |t|
    ensures t[..k] == s[|s| - |t|..|s| - |t| + k]
    ensures t[k..] == s[|s| - |t| + k..]
  {
  }

  /** Trimming twice is trimming once. */
  lemma TrimIdempotent(s: string)
    ensures Trim(Trim(s)) == Trim(s)
  {
    var r := Trim(s);
    assert TrimStart(r) == r;
    assert TrimEnd(r) == r;
  }

  // ---------------------------------------------------------------------------
  // The two parsers
  // ---------------------------------------------------------------------------

  /** Outcome of calling a configuration's parser: its text, or a thrown error. */
  datatype ParseResult = Parsed(text: string) | ParseThrew

  /** The attribution of a quote (the `fromText` of js/text.js:13): work and
      author when there is an author, otherwise the work, otherwise "未知"
      (unknown). It is never empty. */
  function Attribution(data: map<string, JsValue>): (a: string)
    ensures !Field(data, "from").Other? ==> a != []
    ensures Truthy(Field(data, "from_who")) ==>
              a == ToText(Field(data, "from")) + " · " + ToText(Field(data, "from_who"))
    ensures !Truthy(Field(data, "from_who")) && Truthy(Field(data, "from")) ==>
              a == ToText(Field(data, "from"))
    ensures !Truthy(Field(data, "from_who")) && !Truthy(Field(data, "from")) ==> a == "未知"
  {
    var fromWho := Field(data, "from_who");
    var from := Field(data, "from");
    if Truthy(fromWho) then ToText(from) + " · " + ToText(fromWho)
    else if Truthy(from) then ToText(from)
    else "未知"
  }

  const QuoteSeparator: string := " —— "

  /** The quote parser: the quote, the separator, then the attribution. The
      quote text can be read back from the front of the result. */
  function ParseHitokoto(data: map<string, JsValue>): (r: string)
    ensures |r| >= |ToText(Field(data, "hitokoto"))| + |QuoteSeparator|
    ensures !Field(data, "from").Other? ==> |r| > |ToText(Field(data, "hitokoto"))| + |QuoteSeparator|
    ensures r[..|ToText(Field(data, "hitokoto"))|] == ToText(Field(data, "hitokoto"))
    ensures r[|ToText(Field(data, "hitokoto"))|..][..|QuoteSeparator|] == QuoteSeparator
    ensures r[|ToText(Field(data, "hitokoto"))| + |QuoteSeparator|..] == Attribution(data)
  {
    var q := ToText(Field(data, "hitokoto"));
    var a := Attribution(data);
    var r := q + QuoteSeparator + a;
    assert r[|q|..] == QuoteSeparator + a;
    r
  }

  /** `s` occurs in `t` as a contiguous part. */
  ghost predicate Occurs(s: string, t: string)
  {
    exists k :: OccursAt(s, t, k)
  }

  /** `s` occurs in `t` starting at index `k`. */
  predicate OccursAt(s: string, t: string, k: int)
  {
    0 <= k <= |t| - |s| && t[k..k + |s|] == s
  }

  /** Trimming never cuts into a part that starts and ends with a character
      that is not white space. */
  lemma TrimKeeps(s: string, p: nat, q: nat)
    requires p < q <= |s|
    requires !IsWhiteSpace(s[p]) && !IsWhiteSpace(s[q - 1])
    ensures Occurs(s[p..q], Trim(s))
  {
    var r := Trim(s);
    var i, j :| 0 <= i <= j <= |s| && r == s[i..j] && AllWhiteSpace(s[..i]) && AllWhiteSpace(s[j..]);
    InnerKept(s, i, j, p, q);
  }

  /** The same for any slice `s[i..j]` that cuts only white space. */
  lemma InnerKept(s: string, i: nat, j: nat, p: nat, q: nat)
    requires i <= j <= |s| && AllWhiteSpace(s[..i]) && AllWhiteSpace(s[j..])
    requires p < q <= |s| && !IsWhiteSpace(s[p]) && !IsWhiteSpace(s[q - 1])
    ensures Occurs(s[p..q], s[i..j])
  {
    WhiteSpaceBefore(s, i, p);
    WhiteSpaceAfter(s, j, q - 1);
    var t := s[i..j];
    var k := p - i;
    var w := s[p..q];
    assert |w| == q - p && 0 <= k <= |t| - |w|;
    forall m | 0 <= m < |w|
      ensures t[k..k + |w|][m] == w[m]
    {
      assert t[k + m] == s[i + k + m];
    }
    assert t[k..k + |w|] == w;
    assert OccursAt(w, t, k);
  }

  /** A character that is not white space lies at or after the end of an
      all-white-space prefix. */
  lemma WhiteSpaceBefore(s: string, i: nat, p: nat)
    requires i <= |s| && p < |s| && AllWhiteSpace(s[..i]) && !IsWhiteSpace(s[p])
    ensures i <= p
  {
    forall k | 0 <= k < i
      ensures IsWhiteSpace(s[k])
    {
      assert s[..i][k] == s[k];
    }
  }

  /** A character that is not white space lies before the start of an
      all-white-space suffix. */
  lemma WhiteSpaceAfter(s: string, j: nat, p: nat)
    requires j <= |s| && p < |s| && AllWhiteSpace(s[j..]) && !IsWhiteSpace(s[p])
    ensures p < j
  {
    forall k | j <= k < |s|
      ensures IsWhiteSpace(s[k])
    {
      assert s[j..][k - j] == s[k];
    }
  }

  /** The text the poem parser builds when there is an origin or an author:
      the content, a line break, the origin in 《》 after a dash when present,
      and the author after a space when present. */
  function PoemText(data: map<string, JsValue>): string
  {
    var origin := Field(data, "origin");
    var author := Field(data, "author");
    ToText(Field(data, "content")) + "\n"
    + (if Truthy(origin) then " —— 《" + ToText(origin) + "》" else "")
    + (if Truthy(author) then " " + ToText(author) else "")
  }

  /** The poem parser. With an origin or an author it trims the composed
      `PoemText`, whose bracketed origin survives the trimming; with neither it
      trims the content, which throws when the content is not a string. A
      parsed poem never has white space at either end. */
  function ParsePoem(data: map<string, JsValue>): (r: ParseResult)
    ensures r == ParseThrew <==>
              !Truthy(Field(data, "origin")) && !Truthy(Field(data, "author"))
              && !Field(data, "content").Str?
    ensures r.Parsed? ==> Trimmed(r.text)
    ensures Truthy(Field(data, "origin")) || Truthy(Field(data, "author")) ==>
              r == Parsed(Trim(PoemText(data)))
    ensures Truthy(Field(data, "origin")) ==>
              r.Parsed? && Occurs("《" + ToText(Field(data, "origin")) + "》", r.text)
    ensures (!Truthy(Field(data, "origin")) && !Truthy(Field(data, "author"))
             && Field(data, "content").Str?) ==> r == Parsed(Trim(Field(data, "content").s))
  {
    var content := Field(data, "content");
    var origin := Field(data, "origin");
    var author := Field(data, "author");
    if Truthy(origin) || Truthy(author) then
      var text := PoemText(data);
      if Truthy(origin) then
        var w := "《" + ToText(origin) + "》";
        var p := |ToText(content)| + 5;
        assert text[p..p + |w|] == w;
        TrimKeeps(text, p, p + |w|);
        Parsed(Trim(text))
      else
        Parsed(Trim(text))
    else if content.Str? then
      Parsed(Trim(content.s))
    else
      ParseThrew
  }

  // ---------------------------------------------------------------------------
  // callAPI
  // ---------------------------------------------------------------------------

  datatype Parser = HitokotoParser | PoemParser

  /** An endpoint configuration: its address and its parser. */
  datatype ApiConfig = ApiConfig(url: string, parser: Parser)

  /** What requesting an endpoint gives: `fetch` rejects, the status is not ok,
      or an ok response with its body. */
  datatype Response = FetchFailed | NotOk(status: int) | Ok(payload: Payload)

  /** Applying a configuration's parser to a decoded body; reading a property
      of `null` throws. */
  function Parse(parser: Parser, payload: Payload): ParseResult
    requires !payload.Malformed?
  {
    match payload
    case JsonNull => ParseThrew
    case JsonObject(fields) =>
      match parser
      case HitokotoParser => Parsed(ParseHitokoto(fields))
      case PoemParser => ParsePoem(fields)
  }

  /** One iteration of the loop in `callAPI`: the parsed text when the response
      is ok and neither `json()` nor the parser throws, otherwise nothing (the
      loop goes on with the next endpoint). */
  function Attempt(config: ApiConfig, response: Response): Option<string>
  {
    match response
    case FetchFailed => None
    case NotOk(_) => None
    case Ok(payload) =>
      if payload.Malformed? then None
      else match Parse(config.parser, payload)
        case Parsed(text) => Some(text)
        case ParseThrew => None
  }

  /** The position and text of the first endpoint at or after `k` whose attempt
      succeeds: every endpoint before it fails, and there is none when all of
      them fail. */
  function FirstSuccess(configs: seq<ApiConfig>, responses: seq<Response>, k: nat)
    : (r: Option<(nat, string)>)
    requires |responses| == |configs| && k <= |configs|
    ensures r.Some? ==> k <= r.value.0 < |configs|
                        && Attempt(configs[r.value.0], responses[r.value.0]) == Some(r.value.1)
                        && forall j :: k <= j < r.value.0 ==> Attempt(configs[j], responses[j]) == None
    ensures r.None? <==> forall j :: k <= j < |configs| ==> Attempt(configs[j], responses[j]) == None
    decreases |configs| - k
  {
    if k == |configs| then None
    else match Attempt(configs[k], responses[k])
      case Some(text) => Some((k, text))
      case None => FirstSuccess(configs, responses, k + 1)
  }

  /** The static content used when every endpoint fails: one fixed text, or a
      pool to pick from at random. */
  datatype Fallback = Fixed(text: string) | Pool(items: seq<string>)

  /** The fallback value: the fixed text, or `items[Math.floor(r * length)]`,
      which is an element of the pool (and `undefined` for an empty pool). */
  function PickFallback(fallback: Fallback, r: real): (v: JsValue)
    requires 0.0 <= r < 1.0
    ensures fallback.Fixed? ==> v == Str(fallback.text)
    ensures fallback.Pool? && fallback.items != [] ==> v.Str? && v.s in fallback.items
    ensures fallback.Pool? && fallback.items != [] ==>
              v == Str(fallback.items[RandomIndex(r, |fallback.items|)])
    ensures fallback.Pool? && fallback.items == [] ==> v == Undefined
  {
    match fallback
    case Fixed(text) => Str(text)
    case Pool(items) =>
      var k := RandomIndex(r, |items|);
      if 0 <= k < |items| then Str(items[k]) else Undefined
  }

  /** `callAPI`: tries the endpoints in list order and returns the text of the
      first one that succeeds, having requested no endpoint after it; when all
      fail it has requested every endpoint and returns the fallback. It never
      throws. `requested` counts the `fetch` calls made. */
  method CallApi(configs: seq<ApiConfig>, fallback: Fallback, responses: seq<Response>, r: real)
    returns (result: JsValue, requested: nat)
    requires |responses| == |configs|
    requires 0.0 <= r < 1.0
    ensures var first := FirstSuccess(configs, responses, 0);
            if first.Some? then requested == first.value.0 + 1 && result == Str(first.value.1)
            else requested == |configs| && result == PickFallback(fallback, r)
  {
    var i := 0;
    while i < |configs|
      invariant 0 <= i <= |configs|
      invariant forall j :: 0 <= j < i ==> Attempt(configs[j], responses[j]) == None
    {
      match responses[i] {
      case FetchFailed =>
        // the rejected fetch is caught; next endpoint
      case NotOk(_) =>
        // !response.ok: next endpoint
      case Ok(payload) =>
        if !payload.Malformed? {
          var parsed := Parse(configs[i].parser, payload);
          if parsed.Parsed? {
            assert Attempt(configs[i], responses[i]) == Some(parsed.text);
            result, requested := Str(parsed.text), i + 1;
            return;
          }
          // the parser threw: caught; next endpoint
        }
        // response.json() threw: caught; next endpoint
      }
      assert Attempt(configs[i], responses[i]) == None;
      i := i + 1;
    }
    result, requested := PickFallback(fallback, r), |configs|;
  }

  // ---------------------------------------------------------------------------
  // The callback registry
  // ---------------------------------------------------------------------------

  /** A value passed to `onHitokotoUpdate` or `removeHitokotoCallback`: a
      function, identified by reference, or any other value. */
  datatype CallbackArg = Function(id: nat) | NotAFunction

  /** `list.indexOf(x)`: the first position of `x`, or -1 when absent. */
  function IndexOf(s: seq<nat>, x: nat): (k: int)
    ensures -1 <= k < |s|
    ensures k == -1 <==> x !in s
    ensures k >= 0 ==> s[k] == x && x !in s[..k]
  {
    if s == [] then -1
    else if s[0] == x then 0
    else
      var k := IndexOf(s[1..], x);
      if k == -1 then -1
      else
        assert s[..k + 1] == [s[0]] + s[1..][..k];
        k + 1
  }

  /** `list.splice(list.indexOf(x), 1)` guarded by `index > -1`: removes the
      first occurrence of `x` and keeps the rest in order; a list without `x`
      is left as it is. */
  function RemoveFirst(s: seq<nat>, x: nat): (r: seq<nat>)
    ensures x !in s ==> r == s
    ensures x in s ==> |r| == |s| - 1
    ensures multiset(r) == multiset(s) - multiset{x}
    ensures x in s ==> forall j :: 0 <= j < |r| ==> r[j] == if j < IndexOf(s, x) then s[j] else s[j + 1]
  {
    var k := IndexOf(s, x);
    if k > -1 then
      assert s == s[..k] + [s[k]] + s[k + 1..];
      s[..k] + s[k + 1..]
    else
      s
  }

  /** Registering a callback that was not registered and then removing it
      restores the registry. */
  lemma {:induction false} RegisterThenRemove(s: seq<nat>, x: nat)
    requires x !in s
    ensures RemoveFirst(s + [x], x) == s
  {
    assert IndexOf(s + [x], x) == |s| by {
      assert (s + [x])[|s|] == x;
      assert (s + [x])[..|s|] == s;
    }
    assert (s + [x])[..|s|] == s;
  }

  /** One call of a registered callback during notification. */
  datatype Invocation = Invocation(callback: nat, text: JsValue, threw: bool)

  // ---------------------------------------------------------------------------
  // The manager's state
  // ---------------------------------------------------------------------------

  const HitokotoApis: seq<ApiConfig> := [ApiConfig("https://api.pwxiao.top/", HitokotoParser)]

  const PoemApis: seq<ApiConfig> := [ApiConfig("https://v1.jinrishici.com/all.json", PoemParser)]

  const FallbackHitokoto: string := "山重水复疑无路，柳暗花明又一村。 —— 陆游"

  const FallbackPoems: seq<string> := [
    "春眠不觉晓，处处闻啼鸟。\n夜来风雨声，花落知多少。\n —— 《春晓》 孟浩然",
    "床前明月光，疑是地上霜。\n举头望明月，低头思故乡。\n —— 《静夜思》 李白",
    "红豆生南国，春来发几枝。\n愿君多采撷，此物最相思。\n —— 《相思》 王维",
    "独在异乡为异客，每逢佳节倍思亲。\n遥知兄弟登高处，遍插茱萸少一人。\n —— 《九月九日忆山东兄弟》 王维",
    "白日依山尽，黄河入海流。\n欲穷千里目，更上一层楼。\n —— 《登鹳雀楼》 王之涣"
  ]

  /** The closure state of `window.textManager`. */
  class ContentManager {
    var currentHitokoto: JsValue
    var currentPoem: JsValue
    /** The registered callbacks, by reference, in registration order. */
    var hitokotoCallbacks: seq<nat>

    constructor ()
      ensures currentHitokoto == Str("正在获取一言...")
      ensures currentPoem == Str("加载中...")
      ensures hitokotoCallbacks == []
    {
      currentHitokoto := Str("正在获取一言...");
      currentPoem := Str("加载中...");
      hitokotoCallbacks := [];
    }

    /** `notifyCallbacks`: calls every registered callback with `text`, in
        registration order; a callback that throws (as `throws` says) is
        logged and the remaining ones are still called. */
    method NotifyCallbacks(text: JsValue, throws: (nat, JsValue) -> bool) returns (calls: seq<Invocation>)
      ensures |calls| == |hitokotoCallbacks|
      ensures forall k :: 0 <= k < |calls| ==>
                calls[k] == Invocation(hitokotoCallbacks[k], text, throws(hitokotoCallbacks[k], text))
    {
      calls := [];
      var k := 0;
      while k < |hitokotoCallbacks|
        invariant 0 <= k <= |hitokotoCallbacks|
        invariant |calls| == k
        invariant forall j :: 0 <= j < k ==>
                    calls[j] == Invocation(hitokotoCallbacks[j], text, throws(hitokotoCallbacks[j], text))
      {
        var callback := hitokotoCallbacks[k];
        // try { callback(text) } catch { log }: either way the loop goes on
        var threw := throws(callback, text);
        calls := calls + [Invocation(callback, text, threw)];
        k := k + 1;
      }
    }

    /** `fetchHitokoto`: the quote from the first working endpoint or the fixed
        fallback becomes the cached quote, and every callback is notified with
        it. */
    method FetchHitokoto(responses: seq<Response>, throws: (nat, JsValue) -> bool)
      returns (result: JsValue, requested: nat, calls: seq<Invocation>)
      requires |responses| == |HitokotoApis|
      modifies this
      ensures currentHitokoto == result
      ensures currentPoem == old(currentPoem) && hitokotoCallbacks == old(hitokotoCallbacks)
      ensures var first := FirstSuccess(HitokotoApis, responses, 0);
              if first.Some? then result == Str(first.value.1) && requested == first.value.0 + 1
              else result == Str(FallbackHitokoto) && requested == |HitokotoApis|
      ensures |calls| == |hitokotoCallbacks|
      ensures forall k :: 0 <= k < |calls| ==>
                calls[k] == Invocation(hitokotoCallbacks[k], result, throws(hitokotoCallbacks[k], result))
    {
      // The fallback is not an array, so Math.random() is not consulted.
      result, requested := CallApi(HitokotoApis, Fixed(FallbackHitokoto), responses, 0.0);
      currentHitokoto := result;
      calls := NotifyCallbacks(result, throws);
    }

    /** `fetchPoem`: the poem from the first working endpoint or one of the
        fallback poems becomes the cached poem; no callback is notified. */
    method FetchPoem(responses: seq<Response>, r: real) returns (result: JsValue, requested: nat)
      requires |responses| == |PoemApis|
      requires 0.0 <= r < 1.0
      modifies this
      ensures currentPoem == result
      ensures currentHitokoto == old(currentHitokoto) && hitokotoCallbacks == old(hitokotoCallbacks)
      ensures var first := FirstSuccess(PoemApis, responses, 0);
              if first.Some? then result == Str(first.value.1) && requested == first.value.0 + 1
              else result == PickFallback(Pool(FallbackPoems), r) && result.Str? && result.s in FallbackPoems
                   && requested == |PoemApis|
    {
      result, requested := CallApi(PoemApis, Pool(FallbackPoems), responses, r);
      currentPoem := result;
    }

    /** `onHitokotoUpdate`: registers the argument only when it is a function. */
    method OnHitokotoUpdate(callback: CallbackArg)
      modifies this
      ensures hitokotoCallbacks == if callback.Function? then old(hitokotoCallbacks) + [callback.id]
                                   else old(hitokotoCallbacks)
      ensures currentHitokoto == old(currentHitokoto) && currentPoem == old(currentPoem)
    {
      if callback.Function? {
        hitokotoCallbacks := hitokotoCallbacks + [callback.id];
      }
    }

    /** `removeHitokotoCallback`: removes the first registration of the argument;
        a value that is not registered (a non-function never is) changes
        nothing. */
    method RemoveHitokotoCallback(callback: CallbackArg)
      modifies this
      ensures callback.Function? ==> hitokotoCallbacks == RemoveFirst(old(hitokotoCallbacks), callback.id)
      ensures callback.NotAFunction? ==> hitokotoCallbacks == old(hitokotoCallbacks)
      ensures currentHitokoto == old(currentHitokoto) && currentPoem == old(currentPoem)
    {
      if callback.Function? {
        var index := IndexOf(hitokotoCallbacks, callback.id);
        if index > -1 {
          hitokotoCallbacks := hitokotoCallbacks[..index] + hitokotoCallbacks[index + 1..];
        }
      }
    }
  }
}
