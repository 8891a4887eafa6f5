/**
 * The two routes from a request to the `(cmd, {text?, action?})` pair that finalize
 * receives in src/main/httpServer.ts: URL query parameters for GET, a JSON body for POST.
 */
module TriggerParams {
  import opened Wrappers
  import opened Json

  /** The optional parameters passed to the handler; None stands for `undefined`. */
  datatype Params = Params(text: Option<string>, action: Option<string>)

  /** A command and its parameters, as handed to finalize. */
  datatype Trigger = Trigger(cmd: string, params: Params)

  /** The decoded name/value pairs of the query string, in order. */
  type Query = seq<(string, string)>

  /** URLSearchParams.get: the value of the first pair with that name; null (None) if there is none. */
  function QueryGet(q: Query, name: string): (r: Option<string>)
    ensures r.None? <==> forall i :: 0 <= i < |q| ==> q[i].0 != name
    ensures r.Some? ==>
      exists i :: 0 <= i < |q| && q[i] == (name, r.value) && forall j :: 0 <= j < i ==> q[j].0 != name
  {
    if q == [] then None
    else if q[0].0 == name then Some(q[0].1)
    else
      var r := QueryGet(q[1..], name);
      assert forall i :: 0 < i < |q| ==> q[i] == q[1..][i - 1];
      r
  }

  /** `x || undefined` on a string-or-null: a missing or empty string becomes undefined. */
  function Truthy(x: Option<string>): (r: Option<string>)
    ensures r != Some("")
    ensures r.Some? ==> r == x
    ensures x.Some? && x.value != "" ==> r == x
  {
    if x.Some? && x.value != "" then x else None
  }

  /**
   * GET extraction: `cmd` falls back to "" when missing or empty, and an empty `text`
   * or `action` is dropped like a missing one.
   */
  function FromQuery(q: Query): (t: Trigger)
    ensures t.cmd != "" <==> QueryGet(q, "cmd").Some? && QueryGet(q, "cmd").value != ""
    ensures t.cmd != "" ==> QueryGet(q, "cmd") == Some(t.cmd)
    ensures t.params.text.Some? <==> QueryGet(q, "text").Some? && QueryGet(q, "text").value != ""
    ensures t.params.text.Some? ==> t.params.text == QueryGet(q, "text")
    ensures t.params.action.Some? <==> QueryGet(q, "action").Some? && QueryGet(q, "action").value != ""
    ensures t.params.action.Some? ==> t.params.action == QueryGet(q, "action")
  {
    var cmd := Truthy(QueryGet(q, "cmd"));
    Trigger(if cmd.Some? then cmd.value else "",
            Params(Truthy(QueryGet(q, "text")), Truthy(QueryGet(q, "action"))))
  }

  /** `typeof v?.[key] === 'string' ? v[key] : undefined`. */
  function StringProperty(v: Value, key: string): (r: Option<string>)
    ensures r.Some? <==> Property(v, key).Some? && Property(v, key).value.JString?
    ensures r.Some? ==> Property(v, key) == Some(JString(r.value))
  {
    match Property(v, key)
    case Some(JString(s)) => Some(s)
    case _ => None
  }

  /**
   * Extraction from a parsed body: `cmd` is `(v?.cmd ?? '').toString()`, `text` and
   * `action` are kept only when they are strings. None when the coercion of `cmd` throws.
   */
  function FromJson(v: Value): (r: Option<Trigger>)
    ensures r.None? <==> Property(v, "cmd").Some? && ElementThrows(Property(v, "cmd").value)
    ensures Property(v, "cmd").None? || Property(v, "cmd") == Some(JNull) ==> r.Some? && r.value.cmd == ""
    ensures forall s :: Property(v, "cmd") == Some(JString(s)) ==> r.Some? && r.value.cmd == s
    ensures forall c :: Property(v, "cmd") == Some(c) && !c.JNull? && r.Some? ==>
      ToText(c).Some? && r.value.cmd == ToText(c).value
    ensures r.Some? ==>
      && (r.value.params.text.Some? <==> Property(v, "text").Some? && Property(v, "text").value.JString?)
      && (r.value.params.text.Some? ==> Property(v, "text") == Some(JString(r.value.params.text.value)))
      && (r.value.params.action.Some? <==> Property(v, "action").Some? && Property(v, "action").value.JString?)
      && (r.value.params.action.Some? ==> Property(v, "action") == Some(JString(r.value.params.action.value)))
  {
    var cmd :=
      match Property(v, "cmd")
      case None => Some("")
      case Some(JNull) => Some("")
      case Some(c) => ToText(c);
    assert Property(v, "cmd").Some? ==> (ToText(Property(v, "cmd").value).None? <==> Throws(Property(v, "cmd").value)) by {
      if Property(v, "cmd").Some? {
        ToTextFailsIff(Property(v, "cmd").value);
      }
    }
    if cmd.None? then None
    else Some(Trigger(cmd.value, Params(StringProperty(v, "text"), StringProperty(v, "action"))))
  }

  /** Non-string commands are converted: a boolean to its name, an array by joining, an object to its tag. */
  lemma CoercedCommands()
    ensures FromJson(JObject(map["cmd" := JBool(true)])) == Some(Trigger("true", Params(None, None)))
    ensures FromJson(JObject(map["cmd" := JArray([JNumber("1"), JNull])])) == Some(Trigger("1,", Params(None, None)))
    ensures FromJson(JObject(map["cmd" := JObject(map[])])) == Some(Trigger("[object Object]", Params(None, None)))
    ensures FromJson(JObject(map["cmd" := JArray([])])) == Some(Trigger("", Params(None, None)))
  {
    var xs := [JNumber("1"), JNull];
    assert xs[..1] == [JNumber("1")];
    assert Join(xs[..1]) == Some("1");
    assert "1" + "," + "" == "1,";
    assert Join(xs) == Some("1,");
  }

  /** The value an empty POST body stands for: `{}`. */
  const EmptyObject: Value := JObject(map[])

  /**
   * POST extraction from the received body: an empty body is `{}`, anything else goes
   * through the parser. None means the try block threw (a syntax error, or a `cmd`
   * whose conversion throws), which the server answers with INVALID_JSON.
   */
  function FromBody(body: string, parse: string -> ParseResult): (r: Option<Trigger>)
    ensures body == "" ==> r == Some(Trigger("", Params(None, None)))
    ensures body != "" && parse(body).SyntaxError? ==> r.None?
    ensures body != "" && parse(body).Parsed? ==> r == FromJson(parse(body).value)
  {
    var parsed := if body == "" then Parsed(EmptyObject) else parse(body);
    match parsed
    case SyntaxError => None
    case Parsed(v) => FromJson(v)
  }

  /** An empty body never consults the parser. */
  lemma EmptyBodyIgnoresParser(p1: string -> ParseResult, p2: string -> ParseResult)
    ensures FromBody("", p1) == FromBody("", p2)
  {
  }

  /** A body whose `cmd` is a string passes it through with the string-typed parameters. */
  lemma StringCommandBody(body: string, parse: string -> ParseResult, cmd: string, text: string)
    requires body != "" && parse(body) == Parsed(JObject(map["cmd" := JString(cmd), "text" := JString(text)]))
    ensures FromBody(body, parse) == Some(Trigger(cmd, Params(Some(text), None)))
  {
  }

  /** Valid JSON whose `cmd` is an object with its own "toString" is still rejected. */
  lemma ShadowedToStringRejected(body: string, parse: string -> ParseResult, inner: map<string, Value>)
    requires body != "" && "toString" in inner
    requires parse(body) == Parsed(JObject(map["cmd" := JObject(inner)]))
    ensures FromBody(body, parse).None?
  {
  }
}
