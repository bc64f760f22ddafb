/** What the bot does with the text an oracle returns before it trusts it: the code-fence
    stripper every consumer applies, the decoded JSON value `json.loads` yields, the Python
    exceptions the handlers tell apart, and the conversions (`float()`, truthiness, `dict.get`,
    field validation of the data models) that can raise them. */
module Json {
  import opened PyText

  datatype Option<T> = None | Some(value: T)

  /** A value `json.loads` can return.  Objects keep their final binding per key. */
  datatype Json =
    | JNull
    | JBool(b: bool)
    | JNum(n: real)
    | JStr(s: string)
    | JArr(items: seq<Json>)
    | JObj(fields: map<string, Json>)

  /** The exceptions the core's `except` clauses name, plus the one none of them names. */
  datatype PyError = JSONDecodeError | KeyError | ValueError | TypeError | AttributeError

  datatype Result<T> = Ok(value: T) | Err(error: PyError)

  /** `except (handlers...)` catches `e`; `JSONDecodeError` is a subclass of `ValueError`,
      and so is the validation error of the data models. */
  predicate CaughtBy(e: PyError, handlers: set<PyError>) {
    e in handlers || (e == JSONDecodeError && ValueError in handlers)
  }

  /** `json.loads`: an oracle from text to a tagged result. */
  type Loads = string -> Result<Json>

  /** `float(s)` on a string: `Some(x)` for a finite value, `None` where it raises `ValueError`. */
  type FloatOfStr = string -> Option<real>

  /** The fence stripper shared by judge, contextor, transcript ingestion and the eval harness:
      trim, drop a leading "```json" and then a leading "```", drop a trailing "```", trim. */
  function StripFence(text: string): (r: string)
    ensures IsTrimmed(r)
  {
    Strip(DropClosingFence(DropOpeningFence(DropJsonFence(Strip(text)))))
  }

  function DropJsonFence(a: string): string {
    if StartsWith(a, "```json") then a[7..] else a
  }

  function DropOpeningFence(b: string): string {
    if StartsWith(b, "```") then b[3..] else b
  }

  function DropClosingFence(c: string): string {
    if EndsWith(c, "```") then c[..|c| - 3] else c
  }

  lemma StartsWithPrefix(s: string, p: string, q: string)
    requires StartsWith(s, p) && StartsWith(p, q)
    ensures StartsWith(s, q)
  {
    assert s[..|q|] == s[..|p|][..|q|];
  }

  /** Text that is already trimmed and carries no fence comes through unchanged. */
  lemma StripFenceUnfenced(text: string)
    requires IsTrimmed(text)
    requires !StartsWith(text, "```") && !EndsWith(text, "```")
    ensures StripFence(text) == text
  {
    StripTrimmed(text);
    if StartsWith(text, "```json") {
      StartsWithPrefix(text, "```json", "```");
      assert false;
    }
    assert DropJsonFence(text) == text;
  }

  lemma OpenJsonFence(body: string)
    ensures DropJsonFence(Strip("```json" + body + "```")) == body + "```"
  {
    var text := "```json" + body + "```";
    assert text[0] == '`' && text[|text| - 1] == '`';
    StripTrimmed(text);
    assert text[..7] == "```json";
    assert text[7..] == body + "```";
  }

  lemma CloseFence(body: string)
    requires body == [] || body[0] != '`'
    ensures DropClosingFence(DropOpeningFence(body + "```")) == body
  {
    var b := body + "```";
    if body == [] {
      assert b[..3] == "```";
      assert DropOpeningFence(b) == "";
    } else {
      assert b[0] == body[0];
      assert DropOpeningFence(b) == b;
      assert b[|b| - 3..] == "```";
      assert b[..|b| - 3] == body;
    }
  }

  /** A body wrapped in a "```json" fence is recovered, trimmed. */
  lemma StripFenceFenced(body: string)
    requires body == [] || body[0] != '`'
    ensures StripFence("```json" + body + "```") == Strip(body)
  {
    OpenJsonFence(body);
    CloseFence(body);
  }

  /** Python truthiness of a decoded value. */
  predicate Truthy(j: Json) {
    match j
    case JNull => false
    case JBool(b) => b
    case JNum(n) => n != 0.0
    case JStr(s) => s != []
    case JArr(xs) => xs != []
    case JObj(m) => |m| > 0
  }

  /** `d.get(key, default)` on a decoded object. */
  function Get(m: map<string, Json>, key: string, default: Json): (r: Json)
    ensures key in m ==> r == m[key]
    ensures key !in m ==> r == default
  {
    if key in m then m[key] else default
  }

  /** `float(v)`: numbers and booleans convert, strings go through `float(str)`, anything
      else raises `TypeError`. */
  function ToFloat(j: Json, floatOfStr: FloatOfStr): (r: Result<real>)
    ensures j.JNum? ==> r == Ok(j.n)
    ensures (j.JNull? || j.JArr? || j.JObj?) ==> r == Err(TypeError)
    ensures r.Err? ==> r.error in {TypeError, ValueError}
  {
    match j
    case JNum(n) => Ok(n)
    case JBool(b) => Ok(if b then 1.0 else 0.0)
    case JStr(s) => (match floatOfStr(s) case Some(x) => Ok(x) case None => Err(ValueError))
    case _ => Err(TypeError)
  }

  /** Validation of a `str` field. */
  function AsStr(j: Json): (r: Result<string>)
    ensures r.Ok? <==> j.JStr?
    ensures r.Ok? ==> r.value == j.s
    ensures r.Err? ==> r.error == ValueError
  {
    if j.JStr? then Ok(j.s) else Err(ValueError)
  }

  /** Validation of an `Optional[str]` field. */
  function AsOptStr(j: Json): (r: Result<Option<string>>)
    ensures r.Ok? <==> (j.JStr? || j.JNull?)
    ensures r.Err? ==> r.error == ValueError
  {
    match j
    case JNull => Ok(None)
    case JStr(s) => Ok(Some(s))
    case _ => Err(ValueError)
  }

  predicate IsIntegral(n: real) {
    n.Floor as real == n
  }

  /** Validation of an `int` field: an integral JSON number. */
  function AsInt(j: Json): (r: Result<int>)
    ensures r.Ok? <==> (j.JNum? && IsIntegral(j.n))
    ensures r.Ok? ==> r.value as real == j.n
    ensures r.Err? ==> r.error == ValueError
  {
    if j.JNum? && IsIntegral(j.n) then Ok(j.n.Floor) else Err(ValueError)
  }

  /** Validation of a `float` field: a JSON number. */
  function AsReal(j: Json): (r: Result<real>)
    ensures r.Ok? <==> j.JNum?
    ensures r.Ok? ==> r.value == j.n
    ensures r.Err? ==> r.error == ValueError
  {
    if j.JNum? then Ok(j.n) else Err(ValueError)
  }

  const TrueWords: set<string> := {"1", "on", "t", "true", "y", "yes"}
  const FalseWords: set<string> := {"0", "off", "f", "false", "n", "no"}

  /** Validation of a `bool` field: JSON booleans, the numbers 0 and 1, and the usual
      yes/no words in any letter case. */
  function AsBool(j: Json): (r: Result<bool>)
    ensures j.JBool? ==> r == Ok(j.b)
    ensures r.Err? ==> r.error == ValueError
  {
    match j
    case JBool(b) => Ok(b)
    case JNum(n) => if n == 1.0 then Ok(true) else if n == 0.0 then Ok(false) else Err(ValueError)
    case JStr(s) =>
      if Lower(s) in TrueWords then Ok(true)
      else if Lower(s) in FalseWords then Ok(false)
      else Err(ValueError)
    case _ => Err(ValueError)
  }

  /** Validation of a `List[str]` field. */
  function AsStrList(j: Json): (r: Result<seq<string>>)
    ensures r.Ok? <==> (j.JArr? && forall i :: 0 <= i < |j.items| ==> j.items[i].JStr?)
    ensures r.Ok? ==> |r.value| == |j.items| && forall i :: 0 <= i < |r.value| ==> j.items[i] == JStr(r.value[i])
    ensures r.Err? ==> r.error == ValueError
  {
    if j.JArr? then StrItems(j.items) else Err(ValueError)
  }

  function StrItems(items: seq<Json>): (r: Result<seq<string>>)
    ensures r.Ok? <==> forall i :: 0 <= i < |items| ==> items[i].JStr?
    ensures r.Ok? ==> |r.value| == |items| && forall i :: 0 <= i < |r.value| ==> items[i] == JStr(r.value[i])
    ensures r.Err? ==> r.error == ValueError
  {
    if items == [] then Ok([])
    else if !items[0].JStr? then Err(ValueError)
    else
      match StrItems(items[1..])
      case Ok(rest) => Ok([items[0].s] + rest)
      case Err(e) =>
        assert !items[1..][0].JStr? || exists i :: 0 <= i < |items[1..]| && !items[1..][i].JStr?;
        Err(e)
  }

  /** Validation of a `List[int]` field. */
  function AsIntList(j: Json): (r: Result<seq<int>>)
    ensures r.Ok? <==> (j.JArr? && forall i :: 0 <= i < |j.items| ==> j.items[i].JNum? && IsIntegral(j.items[i].n))
    ensures r.Ok? ==> |r.value| == |j.items| && forall i :: 0 <= i < |r.value| ==> j.items[i] == JNum(r.value[i] as real)
    ensures r.Err? ==> r.error == ValueError
  {
    if j.JArr? then IntItems(j.items) else Err(ValueError)
  }

  function IntItems(items: seq<Json>): (r: Result<seq<int>>)
    ensures r.Ok? <==> forall i :: 0 <= i < |items| ==> items[i].JNum? && IsIntegral(items[i].n)
    ensures r.Ok? ==> |r.value| == |items| && forall i :: 0 <= i < |r.value| ==> items[i] == JNum(r.value[i] as real)
    ensures r.Err? ==> r.error == ValueError
  {
    if items == [] then Ok([])
    else if !(items[0].JNum? && IsIntegral(items[0].n)) then Err(ValueError)
    else
      match IntItems(items[1..])
      case Ok(rest) => Ok([items[0].n.Floor] + rest)
      case Err(e) =>
        assert exists i :: 0 <= i < |items[1..]| && !(items[1..][i].JNum? && IsIntegral(items[1..][i].n));
        Err(e)
  }
}
