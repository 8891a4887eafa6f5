/**
 * The values JSON.parse produces, and the string coercion that src/main/httpServer.ts
 * applies to the `cmd` property of a POST body (`.toString()`, and Array.prototype.join
 * for arrays). The parser itself is not modelled: a parse is an input of type ParseResult.
 */
module Json {
  import opened Wrappers

  /** The text Number.prototype.toString gives for a number: never empty. */
  type NumberText = s: string | s != "" witness "0"

  /**
   * A parsed JSON value. A number is kept as the text Number.prototype.toString gives
   * for it; an object is the map of its own properties (for a repeated key JSON.parse
   * keeps the last occurrence).
   */
  datatype Value =
    | JNull
    | JBool(b: bool)
    | JNumber(repr: NumberText)
    | JString(s: string)
    | JArray(elems: seq<Value>)
    | JObject(members: map<string, Value>)

  /** What JSON.parse does with a body: throws a SyntaxError, or returns a value. */
  datatype ParseResult = SyntaxError | Parsed(value: Value)

  /**
   * `v?.[key]`: an object's own property; undefined (None) for every other value.
   * JavaScript's lookup also walks the prototype chain, but none of the keys read here
   * (`cmd`, `text`, `action`) is a property of Object.prototype, Array.prototype,
   * String.prototype, Number.prototype or Boolean.prototype, so only own properties of
   * objects are ever found.
   */
  function Property(v: Value, key: string): (r: Option<Value>)
    ensures !v.JObject? ==> r.None?
    ensures v.JObject? ==> (r.Some? <==> key in v.members)
    ensures r.Some? ==> v.JObject? && r.value == v.members[key]
  {
    if v.JObject? && key in v.members then Some(v.members[key]) else None
  }

  /**
   * `v.toString()`; None when the call throws a TypeError. `null.toString()` throws, and
   * so does an object whose own (never callable) "toString" property shadows
   * Object.prototype.toString. Arrays join their elements with ",".
   */
  function ToText(v: Value): (r: Option<string>)
    ensures v.JString? ==> r == Some(v.s)
    ensures v.JBool? ==> r == Some(if v.b then "true" else "false")
    ensures v.JNumber? ==> r == Some(v.repr)
    ensures v.JArray? ==> r == Join(v.elems)
    ensures v.JObject? ==> (r.None? <==> "toString" in v.members)
    ensures v.JObject? && "toString" !in v.members ==> r == Some("[object Object]")
    ensures r.Some? && r.value == "" ==> v == JString("") || v.JArray?
    decreases v
  {
    match v
    case JNull => None
    case JBool(b) => Some(if b then "true" else "false")
    case JNumber(repr) => Some(repr)
    case JString(s) => Some(s)
    case JArray(xs) => Join(xs)
    case JObject(m) => if "toString" in m then None else Some("[object Object]")
  }

  /**
   * `xs.join(",")`: a null element contributes "", any other element its string
   * conversion, which for an object with its own "toString" property throws (the
   * property is not callable and Object.prototype.valueOf gives no primitive).
   */
  function Join(xs: seq<Value>): (r: Option<string>)
    ensures r.Some? && xs != [] ==> |r.value| >= |xs| - 1
    ensures (forall i :: 0 <= i < |xs| ==> xs[i].JNull?) ==>
      r.Some? && |r.value| == (if xs == [] then 0 else |xs| - 1)
    decreases xs
  {
    if xs == [] then Some("")
    else
      var last := xs[|xs| - 1];
      var lastText := if last.JNull? then Some("") else ToText(last);
      if |xs| == 1 then lastText else Sep(Join(xs[..|xs| - 1]), lastText)
  }

  /** Two texts with "," between them; a failure on either side is a failure. */
  function Sep(a: Option<string>, b: Option<string>): Option<string>
  {
    if a.Some? && b.Some? then Some(a.value + "," + b.value) else None
  }

  lemma SepAssociative(a: Option<string>, b: Option<string>, c: Option<string>)
    ensures Sep(Sep(a, b), c) == Sep(a, Sep(b, c))
  {
    if a.Some? && b.Some? && c.Some? {
      assert (a.value + "," + b.value) + "," + c.value == a.value + "," + (b.value + "," + c.value);
    }
  }

  /** A one-element array converts as its element does, a null element giving "". */
  lemma JoinSingle(x: Value)
    ensures Join([x]) == if x.JNull? then Some("") else ToText(x)
  {
  }

  /**
   * Joining two non-empty runs of elements is joining each run and putting "," between
   * the results; it fails when either run fails.
   */
  lemma {:induction false} JoinAppend(xs: seq<Value>, ys: seq<Value>)
    requires xs != [] && ys != []
    ensures Join(xs + ys) ==
      if Join(xs).Some? && Join(ys).Some? then Some(Join(xs).value + "," + Join(ys).value) else None
    decreases |ys|
  {
    var zs := xs + ys;
    JoinLast(zs);
    assert zs[|zs| - 1] == ys[|ys| - 1];
    if |ys| == 1 {
      assert zs[..|zs| - 1] == xs;
    } else {
      var front := ys[..|ys| - 1];
      assert zs[..|zs| - 1] == xs + front;
      JoinLast(ys);
      JoinAppend(xs, front);
      SepAssociative(Join(xs), Join(front), LastText(ys));
    }
  }

  /** The text the last element of a non-empty array contributes to its join. */
  function LastText(xs: seq<Value>): Option<string>
    requires xs != []
  {
    if xs[|xs| - 1].JNull? then Some("") else ToText(xs[|xs| - 1])
  }

  /** One step of join: a single element stands alone, otherwise "," separates it from the rest. */
  lemma JoinLast(xs: seq<Value>)
    requires xs != []
    ensures Join(xs) == if |xs| == 1 then LastText(xs) else Sep(Join(xs[..|xs| - 1]), LastText(xs))
  {
  }

  /**
   * Reference characterisation of a throwing conversion: the value is null, or it is an
   * object with its own "toString" property, or an array with a non-null element of
   * that kind, at any depth.
   */
  ghost predicate Throws(v: Value)
    decreases v, 0
  {
    match v
    case JNull => true
    case JObject(m) => "toString" in m
    case JArray(xs) => exists i :: 0 <= i < |xs| && ElementThrows(xs[i])
    case _ => false
  }

  /** An array element whose conversion inside join throws (a null element does not). */
  ghost predicate ElementThrows(x: Value)
    decreases x, 1
  {
    !x.JNull? && Throws(x)
  }

  /** The conversion fails exactly for the values Throws describes. */
  lemma {:induction false} ToTextFailsIff(v: Value)
    ensures ToText(v).None? <==> Throws(v)
    decreases v, 1
  {
    match v
    case JArray(xs) => JoinFailsIff(v, xs);
    case _ =>
  }

  /** Joining fails exactly when one of the elements' conversions fails. */
  lemma {:induction false} JoinFailsIff(whole: Value, xs: seq<Value>)
    requires forall i :: 0 <= i < |xs| ==> xs[i] < whole
    ensures Join(xs).None? <==> exists i :: 0 <= i < |xs| && ElementThrows(xs[i])
    decreases whole, 0, |xs|
  {
    if xs != [] {
      var n := |xs| - 1;
      var last := xs[n];
      if !last.JNull? {
        ToTextFailsIff(last);
      }
      if n > 0 {
        JoinFailsIff(whole, xs[..n]);
        assert forall i :: 0 <= i < n ==> xs[..n][i] == xs[i];
      }
    }
  }

  /** A non-empty string, a boolean, a number and a plain object never convert to "". */
  lemma ScalarTextNonEmpty(v: Value)
    requires v.JBool? || v.JNumber? || (v.JString? && v.s != "") || (v.JObject? && "toString" !in v.members)
    ensures ToText(v).Some? && ToText(v).value != ""
  {
  }
}
