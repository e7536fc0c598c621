/**
 * The shared helpers of the backend: input validation and the report of
 * invalid fields, random ids, the one-level query-string serialiser, the
 * error normaliser, the extension table, the session cookie headers, token
 * pair creation and the filtered listing of a collection.
 */
module Helpers {
  import opened Wrappers
  import opened Text
  import opened JsValues
  import opened Records
  import opened Http
  import opened Store

  /*------------------------------------------------------------------------
   * validate
   *------------------------------------------------------------------------*/

  datatype ExpectedType =
    | StringType | NumberType | BooleanType | EmailType | EnumType | TokenType | ArrayType
    | OtherType(name: string)

  const MaxSafeInteger: real := 9007199254740991.0

  /** The options object `{min, max, equal, enumArr, integer}`. */
  datatype Options = Options(min: real, max: real, equal: real, enumArr: seq<string>, integer: bool)

  /** The defaults `validate` fills in for missing options. */
  const Defaults: Options := Options(-MaxSafeInteger, MaxSafeInteger, 0.0, [], false)

  /** `x % 1 == 0`. */
  predicate IsWhole(x: real) {
    x.Floor as real == x
  }

  /**
   * Stands for the e-mail regular expression: a character, an `@` and at
   * least one more character. The expression itself is not modelled.
   */
  predicate LooksLikeEmail(s: string) {
    exists i :: 0 < i < |s| - 1 && s[i] == '@'
  }

  predicate IsTextType(t: ExpectedType) {
    t.StringType? || t.EmailType? || t.EnumType? || t.TokenType?
  }

  /** Whether a `'string'` check uses the `[min, max]` branch: either bound differs from its default. */
  predicate HasBounds(o: Options) {
    o.min != -MaxSafeInteger || o.max != MaxSafeInteger
  }

  /**
   * `validate(input, expectedType, options)`: the normalised input when it
   * passes the check for its type, `false` otherwise (`undefined` for a
   * non-boolean checked as `'boolean'`).
   */
  function Validate(input: Input, t: ExpectedType, o: Options): (r: Input)
    // A text check is decided on the trimmed input string alone, and yields that string or `false`.
    ensures IsTextType(t) ==> r == (if input.Str? then TextCheck(Trim(input.s), t, o) else False)
    ensures t.NumberType? ==> r == False || (input.Num? && r == input)
    ensures t.NumberType? ==>
      (r != False <==> input.Num? && o.min <= input.n <= o.max && (o.integer ==> IsWhole(input.n)))
    ensures t.OtherType? ==> r == False
  {
    match t
    case StringType | EmailType | EnumType | TokenType =>
      if input.Str? then TextCheck(Trim(input.s), t, o) else False
    case NumberType =>
      if input.Num? && o.min <= input.n <= o.max then
        // Only a truthy number goes through the integer check.
        if input.n != 0.0 && o.integer && !IsWhole(input.n) then False else input
      else False
    case BooleanType =>
      if input.Bool? then input else Undefined
    case ArrayType =>
      if input.Array? && input.length > 0 then input else False
    case OtherType(_) =>
      False
  }

  /** The check of a text type on the already trimmed string: that string when it passes, `false` otherwise. */
  function TextCheck(s: string, t: ExpectedType, o: Options): (r: Input)
    ensures r == False || r == Str(s)
    ensures t.StringType? && HasBounds(o) ==> (r != False <==> o.min <= |s| as real <= o.max)
    ensures t.StringType? && !HasBounds(o) && o.equal != 0.0 ==> (r != False <==> |s| as real == o.equal)
    ensures t.StringType? && !HasBounds(o) && o.equal == 0.0 ==> (r != False <==> s != [])
    ensures t.EmailType? ==> (r != False <==> s != [] && LooksLikeEmail(s))
    ensures t.EnumType? ==> (r != False <==> s != [] && s in o.enumArr)
    ensures t.TokenType? ==> (r != False <==> |s| as real == o.equal)
    ensures !IsTextType(t) ==> r == False
  {
    match t
    case StringType =>
      if HasBounds(o) then (if o.min <= |s| as real <= o.max then Str(s) else False)
      else if o.equal != 0.0 then (if |s| as real == o.equal then Str(s) else False)
      else if |s| > 0 then Str(s) else False
    case EmailType =>
      if |s| > 0 && LooksLikeEmail(s) then Str(s) else False
    case EnumType =>
      if |s| > 0 && s in o.enumArr then Str(s) else False
    case TokenType =>
      if |s| as real == o.equal then Str(s) else False
    case _ => False
  }

  /** A text check looks only at the trimmed string. */
  lemma ValidateTextTrimmed(s: string, t: ExpectedType, o: Options)
    requires IsTextType(t)
    ensures Validate(Str(Trim(s)), t, o) == Validate(Str(s), t, o)
  {
    var x := Trim(s);
    assert Validate(Str(x), t, o) == TextCheck(Trim(x), t, o);
    assert Validate(Str(s), t, o) == TextCheck(x, t, o);
    TrimIdempotent(s);
  }

  /** Validation is a normaliser: a value it has produced passes it unchanged. */
  lemma {:induction false} ValidateIdempotent(input: Input, t: ExpectedType, o: Options)
    ensures Validate(Validate(input, t, o), t, o) == Validate(input, t, o)
  {
    var r := Validate(input, t, o);
    if r == False {
      assert Validate(False, t, o) == False;
    } else if IsTextType(t) {
      assert input.Str? && r == Str(Trim(input.s));
      ValidateTextTrimmed(input.s, t, o);
    }
  }

  /** An accepted text value is truthy unless the `[min, max]` range admits the empty string. */
  lemma ValidatedTextTruthy(input: Input, t: ExpectedType, o: Options)
    requires IsTextType(t) && Validate(input, t, o) != False
    requires t.StringType? && HasBounds(o) ==> o.min > 0.0
    requires t.TokenType? ==> o.equal != 0.0
    ensures Truthy(Validate(input, t, o))
  {
  }

  /*------------------------------------------------------------------------
   * invalidFields
   *------------------------------------------------------------------------*/

  /** The keys of the falsy entries, in entry order. */
  function FalsyKeys(obj: seq<(string, Input)>): seq<string> {
    if obj == [] then []
    else FalsyKeys(obj[..|obj| - 1]) + (if Truthy(obj[|obj| - 1].1) then [] else [obj[|obj| - 1].0])
  }

  /** `invalidFields(obj)`: collects the keys whose values are falsy. */
  method InvalidFields(obj: seq<(string, Input)>) returns (invalid: seq<string>)
    ensures invalid == FalsyKeys(obj)
  {
    invalid := [];
    var i := 0;
    while i < |obj|
      invariant 0 <= i <= |obj|
      invariant invalid == FalsyKeys(obj[..i])
    {
      var (key, value) := obj[i];
      if !Truthy(value) {
        invalid := invalid + [key];
      }
      assert obj[..i + 1][..i] == obj[..i];
      i := i + 1;
    }
    assert obj[..|obj|] == obj;
  }

  /** The report of two objects side by side is the two reports in order. */
  lemma {:induction false} FalsyKeysAppend(a: seq<(string, Input)>, b: seq<(string, Input)>)
    ensures FalsyKeys(a + b) == FalsyKeys(a) + FalsyKeys(b)
    decreases |b|
  {
    if b == [] {
      assert a + b == a;
    } else {
      var b' := b[..|b| - 1];
      assert (a + b)[..|a + b| - 1] == a + b';
      FalsyKeysAppend(a, b');
    }
  }

  /** The report of a one-entry object. */
  lemma FalsyKeysOne(key: string, value: Input)
    ensures FalsyKeys([(key, value)]) == if Truthy(value) then [] else [key]
  {
    assert [(key, value)][..0] == [];
  }

  /** The report of a two-entry object: the first key if its value is falsy, then the second. */
  lemma FalsyKeysTwo(k1: string, v1: Input, k2: string, v2: Input)
    ensures FalsyKeys([(k1, v1), (k2, v2)]) == (if Truthy(v1) then [] else [k1]) + (if Truthy(v2) then [] else [k2])
  {
    FalsyKeysOne(k1, v1);
    assert [(k1, v1), (k2, v2)][..1] == [(k1, v1)];
  }

  /** The report of a four-entry object: each key whose value is falsy, in order. */
  lemma FalsyKeysFour(k1: string, v1: Input, k2: string, v2: Input, k3: string, v3: Input, k4: string, v4: Input)
    ensures FalsyKeys([(k1, v1), (k2, v2), (k3, v3), (k4, v4)])
         == (if Truthy(v1) then [] else [k1]) + (if Truthy(v2) then [] else [k2])
          + (if Truthy(v3) then [] else [k3]) + (if Truthy(v4) then [] else [k4])
  {
    FalsyKeysTwo(k1, v1, k2, v2);
    FalsyKeysTwo(k3, v3, k4, v4);
    FalsyKeysAppend([(k1, v1), (k2, v2)], [(k3, v3), (k4, v4)]);
    assert [(k1, v1), (k2, v2), (k3, v3), (k4, v4)] == [(k1, v1), (k2, v2)] + [(k3, v3), (k4, v4)];
  }

  /** A key is reported exactly when some entry with that key has a falsy value. */
  lemma {:induction false} FalsyKeysExact(obj: seq<(string, Input)>, k: string)
    ensures k in FalsyKeys(obj) <==> exists i :: 0 <= i < |obj| && obj[i].0 == k && !Truthy(obj[i].1)
  {
    if obj != [] {
      var init := obj[..|obj| - 1];
      FalsyKeysExact(init, k);
      assert forall i :: 0 <= i < |init| ==> init[i] == obj[i];
    }
  }

  /*------------------------------------------------------------------------
   * createRandomString
   *------------------------------------------------------------------------*/

  /** The alphabet ids are drawn from: `abcdefghijklmnopqrstuvwxyz0123456789`. */
  predicate IsIdChar(c: char) {
    'a' <= c <= 'z' || '0' <= c <= '9'
  }

  /** How many times `for (i = 0; i < n; i++)` runs for a positive `n`. */
  function Iterations(n: real): (k: nat)
    requires n > 0.0
    ensures k as real >= n && (k - 1) as real < n
  {
    if IsWhole(n) then n.Floor else n.Floor + 1
  }

  /** The shape of `createRandomString(strLength)`: a string of the right length over the alphabet, or `false`. */
  predicate IdShape(id: IdValue, strLength: Input) {
    if strLength.Num? && strLength.n > 0.0 then
      id.Str? && |id.s| == Iterations(strLength.n) && forall k :: 0 <= k < |id.s| ==> IsIdChar(id.s[k])
    else
      id == False
  }

  /** `createRandomString(strLength)`; each character is an arbitrary pick from the alphabet. */
  method CreateRandomString(strLength: Input) returns (r: IdValue)
    ensures IdShape(r, strLength)
  {
    if strLength.Num? && strLength.n > 0.0 {
      var str := "";
      var i: nat := 0;
      while (i as real) < strLength.n
        invariant |str| == i && i <= Iterations(strLength.n)
        invariant forall k :: 0 <= k < |str| ==> IsIdChar(str[k])
        decreases Iterations(strLength.n) - i
      {
        assert IsIdChar('a');
        var c :| IsIdChar(c);
        str := str + [c];
        i := i + 1;
      }
      r := Str(str);
    } else {
      r := False;
    }
  }

  /** A generated id never contains the characters that delimit a cookie. */
  lemma IdIsCookieSafe(id: IdValue, strLength: Input)
    requires IdShape(id, strLength)
    ensures ';' !in KeyText(id) && '=' !in KeyText(id)
  {
    if id.Str? {
      assert forall k :: 0 <= k < |id.s| ==> id.s[k] != ';' && id.s[k] != '=';
    }
  }

  /*------------------------------------------------------------------------
   * stringify
   *------------------------------------------------------------------------*/

  /** A value of the object handed to `stringify`: a primitive (as its text), a one-level object, or `null`. */
  datatype FormValue = Scalar(text: string) | Nested(fields: seq<(string, string)>) | NullValue

  function Pair(key: string, value: string, escape: string -> string): string {
    key + "=" + escape(value) + "&"
  }

  /** `key[k]=v&` for each field of a nested object, in order. */
  function NestedPairs(key: string, fields: seq<(string, string)>, escape: string -> string): string {
    if fields == [] then ""
    else
      var (k, v) := fields[|fields| - 1];
      NestedPairs(key, fields[..|fields| - 1], escape) + Pair(key + "[" + k + "]", v, escape)
  }

  /** What one property contributes; `null` is an object without properties and contributes nothing. */
  function Entry(key: string, v: FormValue, escape: string -> string): string {
    match v
    case Scalar(t) => Pair(key, t, escape)
    case Nested(fs) => NestedPairs(key, fs, escape)
    case NullValue => ""
  }

  /** The contributions of the properties, in property order. */
  function Stringified(obj: seq<(string, FormValue)>, escape: string -> string): string {
    if obj == [] then "" else Entry(obj[0].0, obj[0].1, escape) + Stringified(obj[1..], escape)
  }

  /** The inner loop of `stringify`: appends `key[k]=v&` for each field of a nested object. */
  method AppendNested(str: string, key: string, fields: seq<(string, string)>, escape: string -> string) returns (out: string)
    ensures out == str + NestedPairs(key, fields, escape)
  {
    out := str;
    var j := 0;
    while j < |fields|
      invariant 0 <= j <= |fields|
      invariant out == str + NestedPairs(key, fields[..j], escape)
    {
      var (k, v) := fields[j];
      assert fields[..j + 1][..j] == fields[..j];
      out := out + Pair(key + "[" + k + "]", v, escape);
      j := j + 1;
    }
    assert fields[..|fields|] == fields;
  }

  /** `stringify(obj)`, with `escape` standing for `querystring.escape`. */
  method Stringify(obj: seq<(string, FormValue)>, escape: string -> string) returns (str: string)
    ensures str == Stringified(obj, escape)
  {
    str := "";
    var i := 0;
    while i < |obj|
      invariant 0 <= i <= |obj|
      invariant str == Stringified(obj[..i], escape)
    {
      var (key, value) := obj[i];
      if value.Nested? || value.NullValue? {
        str := AppendNested(str, key, if value.Nested? then value.fields else [], escape);
      } else {
        str := str + Pair(key, value.text, escape);
      }
      StringifiedStep(obj, i, escape);
      i := i + 1;
    }
    assert obj[..|obj|] == obj;
  }

  /** One turn of the `stringify` loop adds the contribution of the next property. */
  lemma StringifiedStep(obj: seq<(string, FormValue)>, i: nat, escape: string -> string)
    requires i < |obj|
    ensures Stringified(obj[..i + 1], escape) == Stringified(obj[..i], escape) + Entry(obj[i].0, obj[i].1, escape)
    ensures obj[i].1.NullValue? ==> Entry(obj[i].0, obj[i].1, escape) == NestedPairs(obj[i].0, [], escape)
  {
    assert obj[..i + 1] == obj[..i] + [obj[i]];
    StringifiedAppend(obj[..i], [obj[i]], escape);
    assert [obj[i]][1..] == [];
  }

  /** Serialising two objects' properties in turn is concatenating their serialisations. */
  lemma {:induction false} StringifiedAppend(a: seq<(string, FormValue)>, b: seq<(string, FormValue)>, escape: string -> string)
    ensures Stringified(a + b, escape) == Stringified(a, escape) + Stringified(b, escape)
  {
    if a == [] {
      assert a + b == b;
    } else {
      assert (a + b)[1..] == a[1..] + b;
      assert (a + b)[0] == a[0];
      StringifiedAppend(a[1..], b, escape);
    }
  }

  function Count(s: string, c: char): nat {
    if s == [] then 0 else (if s[0] == c then 1 else 0) + Count(s[1..], c)
  }

  lemma {:induction false} CountAppend(a: string, b: string, c: char)
    ensures Count(a + b, c) == Count(a, c) + Count(b, c)
  {
    if a == [] {
      assert a + b == b;
    } else {
      assert (a + b)[1..] == a[1..] + b;
      assert (a + b)[0] == a[0];
      CountAppend(a[1..], b, c);
    }
  }

  /** How many `name=value` pairs an object yields: one per primitive, one per field of a nested object. */
  function PairCount(obj: seq<(string, FormValue)>): nat {
    if obj == [] then 0
    else (match obj[0].1 case Scalar(_) => 1 case Nested(fs) => |fs| case NullValue => 0) + PairCount(obj[1..])
  }

  predicate AmpFree(s: string) {
    '&' !in s
  }

  lemma {:induction false} NestedPairsAmps(key: string, fields: seq<(string, string)>, escape: string -> string)
    requires AmpFree(key) && forall v :: AmpFree(escape(v))
    requires forall j :: 0 <= j < |fields| ==> AmpFree(fields[j].0)
    ensures Count(NestedPairs(key, fields, escape), '&') == |fields|
  {
    if fields != [] {
      var (k, v) := fields[|fields| - 1];
      var init := fields[..|fields| - 1];
      NestedPairsAmps(key, init, escape);
      var name := key + "[" + k + "]";
      CountAppend(NestedPairs(key, init, escape), Pair(name, v, escape), '&');
      assert Count(name + "=", '&') == 0 by {
        CountAppend(key, "[", '&');
        CountAppend(key + "[", k, '&');
        CountAppend(key + "[" + k, "]", '&');
        CountAppend(name, "=", '&');
        CountZero(key);
        CountZero(k);
      }
      CountZero(escape(v));
      CountAppend(name + "=", escape(v), '&');
      CountAppend(name + "=" + escape(v), "&", '&');
    }
  }

  lemma {:induction false} CountZero(s: string)
    requires AmpFree(s)
    ensures Count(s, '&') == 0
  {
    if s != [] {
      CountZero(s[1..]);
    }
  }

  /**
   * When neither the keys nor the escaped values contain `&`, the output holds
   * exactly one `&`-terminated pair per primitive and per nested field.
   */
  lemma {:induction false} StringifiedPairCount(obj: seq<(string, FormValue)>, escape: string -> string)
    requires forall v :: AmpFree(escape(v))
    requires forall i :: 0 <= i < |obj| ==> AmpFree(obj[i].0)
    requires forall i, j :: 0 <= i < |obj| && obj[i].1.Nested? && 0 <= j < |obj[i].1.fields| ==> AmpFree(obj[i].1.fields[j].0)
    ensures Count(Stringified(obj, escape), '&') == PairCount(obj)
  {
    if obj != [] {
      var rest := obj[1..];
      var (key, v) := obj[0];
      assert forall i :: 0 <= i < |rest| ==> rest[i] == obj[i + 1];
      StringifiedPairCount(rest, escape);
      CountAppend(Entry(key, v, escape), Stringified(rest, escape), '&');
      match v
      case Scalar(t) =>
        CountZero(key);
        CountZero(escape(t));
        CountAppend(key, "=", '&');
        CountAppend(key + "=", escape(t), '&');
        CountAppend(key + "=" + escape(t), "&", '&');
      case Nested(fs) =>
        NestedPairsAmps(key, fs, escape);
      case NullValue =>
    }
  }

  /*------------------------------------------------------------------------
   * errorHandler
   *------------------------------------------------------------------------*/

  /** The last-resort response. */
  const Internal: Reply := Json(500, Message("Internal", "We're working on it :("))

  /** `errorHandler(err)`: turns anything thrown into a response object. */
  function ErrorHandler(err: Reply): (r: Reply)
    ensures r.status.Some? && r.payload.Some?
    ensures err.status.Some? && err.payload.Some? ==> r == err
    ensures err.status.Some? && err.payload.None? ==> r == Json(err.status.value, Empty)
    ensures err.status.None? ==> r == Internal
  {
    if err.status.Some? && err.payload.Some? then err
    else if err.status.Some? then Json(err.status.value, Empty)
    else Internal
  }

  /** Normalising a normalised error changes nothing. */
  lemma ErrorHandlerIdempotent(err: Reply)
    ensures ErrorHandler(ErrorHandler(err)) == ErrorHandler(err)
  {
  }

  /*------------------------------------------------------------------------
   * getContentType
   *------------------------------------------------------------------------*/

  const KnownExtensions: set<string> := {"css", "gif", "ico", "jpeg", "jpg", "js", "png", "pdf", "rar", "svg", "webm", "zip"}

  const OctetStream := "application/octet-stream"

  /** `getContentType(ext)`. */
  function GetContentType(ext: string): (r: string)
    ensures ext == "jpg" || ext == "jpeg" ==> r == "image/jpeg"
    ensures ext !in KnownExtensions <==> r == OctetStream
  {
    match ext
    case "css" => "text/css"
    case "gif" => "image/gif"
    case "ico" => "image/x-icon"
    case "jpeg" | "jpg" => "image/jpeg"
    case "js" => "application/javascript"
    case "png" => "image/png"
    case "pdf" => "application/pdf"
    case "rar" => "application/x-rar-compressed"
    case "svg" => "image/svg+xml"
    case "webm" => "video/webm"
    case "zip" => "application/zip"
    case _ => OctetStream
  }

  /*------------------------------------------------------------------------
   * Cookies
   *------------------------------------------------------------------------*/

  /** Each part followed by `;`. */
  function Terminated(parts: seq<string>): string {
    if parts == [] then "" else parts[0] + ";" + Terminated(parts[1..])
  }

  /** Splitting a `;`-terminated sequence of `;`-free parts gives the parts back, then the empty tail. */
  lemma {:induction false} SplitTerminated(parts: seq<string>)
    requires forall i :: 0 <= i < |parts| ==> ';' !in parts[i]
    ensures Split(Terminated(parts), ';') == parts + [""]
  {
    if parts == [] {
      SplitNoSeparator("", ';');
    } else {
      var rest := Terminated(parts[1..]);
      SplitTerminated(parts[1..]);
      assert Split(rest, ';') == parts[1..] + [""];
      assert Terminated(parts) == parts[0] + [';'] + rest;
      SplitFirst(parts[0], ';', rest);
      HeadThenTail(parts, [""]);
    }
  }

  /** Putting a sequence's head back in front of its tail. */
  lemma HeadThenTail<T>(p: seq<T>, q: seq<T>)
    requires p != []
    ensures [p[0]] + (p[1..] + q) == p + q
  {
    assert [p[0]] + p[1..] == p;
  }

  /** The five `;`-terminated parts of a directive; the last is ` Secure` in production and a lone space otherwise. */
  function CookieParts(name: string, value: string, maxAge: int, production: bool): seq<string> {
    [name + "=" + value, " Max-Age=" + IntToString(maxAge), " HttpOnly", " SameSite=Lax",
     if production then " Secure" else " "]
  }

  /** `name=value; Max-Age=maxAge; HttpOnly; SameSite=Lax; <Secure or nothing>;`. */
  function CookieDirective(name: string, value: string, maxAge: int, production: bool): string {
    Terminated(CookieParts(name, value, maxAge, production))
  }

  /** What a client reads from one `Set-Cookie` directive of this shape. */
  datatype Cookie = Cookie(name: string, value: string, maxAge: int, secure: bool)

  /** Splits `name=value` at its first `=`. */
  function NameValue(s: string): Option<(string, string)> {
    var i := IndexOf(s, '=');
    if i < |s| then Some((s[..i], s[i + 1..])) else None
  }

  /** Reads a directive back: the `name=value` pair, the `Max-Age` and whether `Secure` is set. */
  function ReadCookie(d: string): Option<Cookie> {
    var parts := Split(d, ';');
    if |parts| == 6 && |parts[1]| >= 9 && parts[1][..9] == " Max-Age=" && parts[2] == " HttpOnly"
       && parts[3] == " SameSite=Lax" && (parts[4] == " Secure" || parts[4] == " ") && parts[5] == ""
    then
      var nv := NameValue(parts[0]);
      var age := ParseInt(parts[1][9..]);
      if nv.Some? && age.Some? then
        Some(Cookie(nv.value.0, nv.value.1, age.value, parts[4] == " Secure"))
      else None
    else None
  }

  /** Where the first `=` of `name=value` is when the name has none. */
  lemma NameValueSplit(name: string, value: string)
    requires '=' !in name
    ensures NameValue(name + "=" + value) == Some((name, value))
  {
    var a := name + "=" + value;
    assert a[..|name|] == name && a[|name| + 1..] == value;
    assert a[|name|] == '=';
    assert forall k :: 0 <= k < |name| ==> a[k] == name[k];
  }

  /** The `Max-Age` part: its prefix, and the numeral after it. */
  lemma MaxAgePart(maxAge: int)
    ensures var b := " Max-Age=" + IntToString(maxAge);
      ';' !in b && |b| >= 9 && b[..9] == " Max-Age=" && b[9..] == IntToString(maxAge)
  {
    var b := " Max-Age=" + IntToString(maxAge);
    assert forall k :: 9 <= k < |b| ==> b[k] == IntToString(maxAge)[k - 9];
  }

  lemma NameValueSafe(name: string, value: string)
    requires ';' !in name && ';' !in value
    ensures ';' !in name + "=" + value
  {
    var a := name + "=" + value;
    assert forall k :: 0 <= k < |a| ==> a[k] == (if k < |name| then name[k] else if k == |name| then '=' else value[k - |name| - 1]);
  }

  /** How a directive whose parts have the expected shape is read. */
  lemma ReadCookieParts(d: string, a: string, b: string, e: string)
    requires Split(d, ';') == [a, b, " HttpOnly", " SameSite=Lax", e, ""]
    requires |b| >= 9 && b[..9] == " Max-Age=" && ParseInt(b[9..]).Some?
    requires (e == " Secure" || e == " ") && NameValue(a).Some?
    ensures ReadCookie(d) == Some(Cookie(NameValue(a).value.0, NameValue(a).value.1, ParseInt(b[9..]).value, e == " Secure"))
  {
  }

  /** A directive reads back as the name, value, max-age and flag it was built from. */
  lemma CookieRoundTrip(name: string, value: string, maxAge: int, production: bool)
    requires ';' !in name && '=' !in name && ';' !in value
    ensures ReadCookie(CookieDirective(name, value, maxAge, production)) == Some(Cookie(name, value, maxAge, production))
  {
    var parts := CookieParts(name, value, maxAge, production);
    NameValueSafe(name, value);
    MaxAgePart(maxAge);
    SplitTerminated(parts);
    IntToStringRoundTrip(maxAge);
    NameValueSplit(name, value);
    ReadCookieParts(CookieDirective(name, value, maxAge, production), parts[0], parts[1], parts[4]);
  }

  /** The round trip for the two fixed cookie names, for any value free of `;`. */
  lemma CookieValueRoundTrip(name: string, value: string, maxAge: int, production: bool)
    requires name == "access_token" || name == "refresh_token"
    ensures ';' !in value ==> ReadCookie(CookieDirective(name, value, maxAge, production)) == Some(Cookie(name, value, maxAge, production))
  {
    if ';' !in value {
      CookieNamesPlain();
      CookieRoundTrip(name, value, maxAge, production);
    }
  }

  /** The two cookie names and the `no_id` placeholder contain neither `;` nor `=`. */
  lemma CookieNamesPlain()
    ensures ';' !in "access_token" && '=' !in "access_token"
    ensures ';' !in "refresh_token" && '=' !in "refresh_token"
    ensures ';' !in "no_id"
  {
  }

  /** `generateCookieHeader(access, refresh)`: an access then a refresh cookie carrying each token's id and max-age. */
  function GenerateCookieHeader(access: Token, refresh: Token, production: bool): (h: Headers)
    ensures h.Keys == {"Set-Cookie"} && |h["Set-Cookie"]| == 2
  {
    map["Set-Cookie" := [
      CookieDirective("access_token", KeyText(access.id), access.maxAge, production),
      CookieDirective("refresh_token", KeyText(refresh.id), refresh.maxAge, production)]]
  }

  /** A client reading the generated header back finds the access cookie, then the refresh cookie, each as issued. */
  lemma GeneratedCookiesRead(access: Token, refresh: Token, production: bool)
    ensures var h := GenerateCookieHeader(access, refresh, production);
      && (';' !in KeyText(access.id) ==>
            ReadCookie(h["Set-Cookie"][0]) == Some(Cookie("access_token", KeyText(access.id), access.maxAge, production)))
      && (';' !in KeyText(refresh.id) ==>
            ReadCookie(h["Set-Cookie"][1]) == Some(Cookie("refresh_token", KeyText(refresh.id), refresh.maxAge, production)))
  {
    CookieValueRoundTrip("access_token", KeyText(access.id), access.maxAge, production);
    CookieValueRoundTrip("refresh_token", KeyText(refresh.id), refresh.maxAge, production);
  }

  /** `deleteCookieHeader()`: both cookies set to `no_id` with a negative max-age, so that clients drop them. */
  function DeleteCookieHeader(production: bool): (h: Headers)
    ensures h.Keys == {"Set-Cookie"} && |h["Set-Cookie"]| == 2
  {
    map["Set-Cookie" := [
      CookieDirective("access_token", "no_id", -1, production),
      CookieDirective("refresh_token", "no_id", -1, production)]]
  }

  /** A client reading the deleting header back finds both cookies set to `no_id` with max-age -1. */
  lemma DeletedCookiesRead(production: bool)
    ensures var h := DeleteCookieHeader(production);
      && ReadCookie(h["Set-Cookie"][0]) == Some(Cookie("access_token", "no_id", -1, production))
      && ReadCookie(h["Set-Cookie"][1]) == Some(Cookie("refresh_token", "no_id", -1, production))
  {
    CookieNamesPlain();
    CookieRoundTrip("access_token", "no_id", -1, production);
    CookieRoundTrip("refresh_token", "no_id", -1, production);
  }

  /*------------------------------------------------------------------------
   * createTokens
   *------------------------------------------------------------------------*/

  /** A token carries the user's name, email and customer id and the given max-age. */
  predicate IssuedFor(t: Token, user: User, maxAge: int) {
    t.name == user.name && t.email == user.email && t.stripeCustomerId == user.stripeCustomerId && t.maxAge == maxAge
  }

  /** The store after saving the access token, then the refresh token, each with `create`. */
  function AfterTokenSaves(before: map<string, Token>, access: Token, refresh: Token): (Result<(), Reply>, map<string, Token>) {
    var a := KeyText(access.id);
    var b := KeyText(refresh.id);
    if a in before then (Err(AlreadyExists), before)
    else if b in before[a := access] then (Err(AlreadyExists), before[a := access])
    else (Ok(()), before[a := access][b := refresh])
  }

  /** `createTokens(userData, tokenIdLength, accessTokenMaxAge, refreshTokenMaxAge)`. */
  method CreateTokens(tokens: Collection<Token>, user: User, tokenIdLength: Input, accessMaxAge: int, refreshMaxAge: int)
    returns (access: Token, refresh: Token, saved: Result<(), Reply>)
    modifies tokens
    ensures IssuedFor(access, user, accessMaxAge) && IssuedFor(refresh, user, refreshMaxAge)
    ensures IdShape(access.id, tokenIdLength) && IdShape(refresh.id, tokenIdLength)
    ensures (saved, tokens.records) == AfterTokenSaves(old(tokens.records), access, refresh)
  {
    var accessId := CreateRandomString(tokenIdLength);
    access := Token(accessId, user.name, user.email, user.stripeCustomerId, accessMaxAge);
    var refreshId := CreateRandomString(tokenIdLength);
    refresh := Token(refreshId, user.name, user.email, user.stripeCustomerId, refreshMaxAge);
    var r := tokens.Create(KeyText(access.id), access, None);
    if r.Err? {
      saved := Err(r.error);
      return;
    }
    r := tokens.Create(KeyText(refresh.id), refresh, None);
    saved := if r.Err? then Err(r.error) else Ok(());
  }

  /** A successful save adds exactly the two tokens, under their ids, and keeps every other token. */
  lemma TokenSavesAddTwo(before: map<string, Token>, access: Token, refresh: Token)
    requires AfterTokenSaves(before, access, refresh).0.Ok?
    ensures var after := AfterTokenSaves(before, access, refresh).1;
      && after.Keys == before.Keys + {KeyText(access.id), KeyText(refresh.id)}
      && |after| == |before| + 2
      && after[KeyText(access.id)] == access && after[KeyText(refresh.id)] == refresh
      && forall k :: k in before ==> after[k] == before[k]
  {
    var a, b := KeyText(access.id), KeyText(refresh.id);
    assert AfterTokenSaves(before, access, refresh).1 == before[a := access][b := refresh];
    AddTwoFresh(before, a, access, b, refresh);
  }

  /** Adding a key that is not yet present grows a map by exactly that key. */
  lemma AddFresh<K, V>(m: map<K, V>, k: K, v: V)
    requires k !in m
    ensures m[k := v].Keys == m.Keys + {k} && |m[k := v]| == |m| + 1
  {
    assert m[k := v].Keys == m.Keys + {k};
  }

  /** Adding two keys, neither yet present, grows a map by exactly those keys. */
  lemma AddTwoFresh<K, V>(m: map<K, V>, a: K, va: V, b: K, vb: V)
    requires a !in m && b !in m[a := va]
    ensures var r := m[a := va][b := vb];
      && r.Keys == m.Keys + {a, b} && |r| == |m| + 2
      && r[a] == va && r[b] == vb
      && forall k :: k in m ==> r[k] == m[k]
  {
    AddFresh(m, a, va);
    AddFresh(m[a := va], b, vb);
  }

  /*------------------------------------------------------------------------
   * filterList
   *------------------------------------------------------------------------*/

  /** Whether some entry of the search object matches the record. */
  predicate AnyMatch<R, S>(rec: R, search: seq<S>, matches: (R, S) -> bool) {
    exists j :: 0 <= j < |search| && matches(rec, search[j])
  }

  /**
   * The inner loop of `filterList` over one record: each search entry in
   * turn is compiled into a pattern (`isPattern` says whether
   * `new RegExp(value, 'gi')` accepts it, and a rejected one throws) and
   * tested (`matches`); the walk stops at the first match. `None` is the
   * throw, `Some(b)` whether the record is kept.
   */
  function Scan<R, S>(rec: R, search: seq<S>, isPattern: S -> bool, matches: (R, S) -> bool): Option<bool> {
    if search == [] then Some(false)
    else if !isPattern(search[0]) then None
    else if matches(rec, search[0]) then Some(true)
    else Scan(rec, search[1..], isPattern, matches)
  }

  /** A listed key is read and scanned without a throw. */
  predicate Readable<R, S>(k: string, records: map<string, R>, search: seq<S>, isPattern: S -> bool, matches: (R, S) -> bool) {
    k in records && Scan(records[k], search, isPattern, matches).Some?
  }

  /** The result of reading and scanning the listed keys in turn; `None` once a read or a pattern throws. */
  function Filtered<R, S>(list: seq<string>, records: map<string, R>, search: seq<S>, isPattern: S -> bool, matches: (R, S) -> bool): Option<seq<R>> {
    if list == [] then Some([])
    else
      var prefix := Filtered(list[..|list| - 1], records, search, isPattern, matches);
      var k := list[|list| - 1];
      if prefix.None? || !Readable(k, records, search, isPattern, matches) then None
      else Some(prefix.value + if Scan(records[k], search, isPattern, matches) == Some(true) then [records[k]] else [])
  }

  /** The listed records some search entry matches, in list order: a reference definition walking the list from its head. */
  function Select<R, S>(list: seq<string>, records: map<string, R>, search: seq<S>, matches: (R, S) -> bool): seq<R>
    requires forall i :: 0 <= i < |list| ==> list[i] in records
  {
    if list == [] then []
    else (if AnyMatch(records[list[0]], search, matches) then [records[list[0]]] else []) + Select(list[1..], records, search, matches)
  }

  /**
   * `filterList(list, dir, searchObj)`; `matches` stands for the
   * case-insensitive regular-expression test of one property and
   * `isPattern` for whether the filter value compiles as a pattern.
   */
  method FilterList<R, S>(list: seq<string>, c: Collection<R>, search: seq<S>, isPattern: S -> bool, matches: (R, S) -> bool)
    returns (r: Option<seq<R>>)
    ensures r == Filtered(list, c.records, search, isPattern, matches)
  {
    var items: seq<R> := [];
    var i := 0;
    while i < |list|
      invariant 0 <= i <= |list|
      invariant Filtered(list[..i], c.records, search, isPattern, matches) == Some(items)
    {
      assert list[..i + 1][..i] == list[..i];
      var read := c.Read(list[i], None);
      if read.Err? {
        FilteredFailsIff(list, c.records, search, isPattern, matches);
        return None;
      }
      var item := read.value;
      ghost var before := items;
      var j := 0;
      while j < |search|
        invariant 0 <= j <= |search|
        invariant items == before
        invariant Scan(item, search[j..], isPattern, matches) == Scan(item, search, isPattern, matches)
      {
        assert search[j..][1..] == search[j + 1..];
        if !isPattern(search[j]) {
          assert !Readable(list[i], c.records, search, isPattern, matches);
          FilteredFailsIff(list, c.records, search, isPattern, matches);
          return None;
        }
        if matches(item, search[j]) {
          assert Scan(item, search, isPattern, matches) == Some(true);
          items := items + [item];
          break;
        }
        j := j + 1;
      }
      assert Readable(list[i], c.records, search, isPattern, matches);
      assert items == before + if Scan(item, search, isPattern, matches) == Some(true) then [item] else [];
      assert list[..i + 1][i] == list[i];
      i := i + 1;
    }
    assert list[..|list|] == list;
    r := Some(items);
  }

  /** A scan that does not throw keeps the record exactly when some entry matches it. */
  lemma {:induction false} ScanKeeps<R, S>(rec: R, search: seq<S>, isPattern: S -> bool, matches: (R, S) -> bool)
    requires Scan(rec, search, isPattern, matches).Some?
    ensures Scan(rec, search, isPattern, matches) == Some(AnyMatch(rec, search, matches))
  {
    if search != [] && isPattern(search[0]) && !matches(rec, search[0]) {
      var tail := search[1..];
      ScanKeeps(rec, tail, isPattern, matches);
      if AnyMatch(rec, tail, matches) {
        var j :| 0 <= j < |tail| && matches(rec, tail[j]);
        assert matches(rec, search[j + 1]);
      }
      if AnyMatch(rec, search, matches) {
        var j :| 0 <= j < |search| && matches(rec, search[j]);
        assert j != 0 && matches(rec, tail[j - 1]);
      }
    } else if search != [] && isPattern(search[0]) {
      assert matches(rec, search[0]);
    }
  }

  /** A scan throws exactly when it reaches an entry that is no pattern before any entry matches. */
  lemma {:induction false} ScanThrowsIff<R, S>(rec: R, search: seq<S>, isPattern: S -> bool, matches: (R, S) -> bool)
    ensures Scan(rec, search, isPattern, matches).None?
        <==> exists j :: 0 <= j < |search| && !isPattern(search[j])
                && forall q :: 0 <= q < j ==> isPattern(search[q]) && !matches(rec, search[q])
  {
    if search == [] {
    } else if !isPattern(search[0]) {
    } else if matches(rec, search[0]) {
      forall j | 0 < j < |search| && !isPattern(search[j])
        ensures !forall q :: 0 <= q < j ==> isPattern(search[q]) && !matches(rec, search[q])
      {
        assert !(isPattern(search[0]) && !matches(rec, search[0]));
      }
    } else {
      var tail := search[1..];
      ScanThrowsIff(rec, tail, isPattern, matches);
      if Scan(rec, tail, isPattern, matches).None? {
        var j :| 0 <= j < |tail| && !isPattern(tail[j])
                && forall q :: 0 <= q < j ==> isPattern(tail[q]) && !matches(rec, tail[q]);
        assert !isPattern(search[j + 1]);
        forall q | 0 <= q < j + 1
          ensures isPattern(search[q]) && !matches(rec, search[q])
        {
          if q > 0 { assert search[q] == tail[q - 1]; }
        }
      } else {
        forall j | 0 <= j < |search| && !isPattern(search[j])
          ensures !forall q :: 0 <= q < j ==> isPattern(search[q]) && !matches(rec, search[q])
        {
          assert j > 0 && !isPattern(tail[j - 1]);
          var q :| 0 <= q < j - 1 && !(isPattern(tail[q]) && !matches(rec, tail[q]));
          assert search[q + 1] == tail[q];
        }
      }
    }
  }

  /** The listing fails exactly when some listed key has no record or its scan throws. */
  lemma {:induction false} FilteredFailsIff<R, S>(list: seq<string>, records: map<string, R>, search: seq<S>, isPattern: S -> bool, matches: (R, S) -> bool)
    ensures Filtered(list, records, search, isPattern, matches).None?
        <==> exists i :: 0 <= i < |list| && !Readable(list[i], records, search, isPattern, matches)
  {
    if list != [] {
      var init := list[..|list| - 1];
      FilteredFailsIff(init, records, search, isPattern, matches);
      assert forall i :: 0 <= i < |init| ==> init[i] == list[i];
    }
  }

  lemma {:induction false} SelectSnoc<R, S>(list: seq<string>, k: string, records: map<string, R>, search: seq<S>, matches: (R, S) -> bool)
    requires forall i :: 0 <= i < |list| ==> list[i] in records
    requires k in records
    ensures Select(list + [k], records, search, matches)
         == Select(list, records, search, matches) + (if AnyMatch(records[k], search, matches) then [records[k]] else [])
  {
    if list != [] {
      var tail := list[1..];
      assert (list + [k])[1..] == tail + [k];
      assert (list + [k])[0] == list[0];
      SelectSnoc(tail, k, records, search, matches);
      var head := if AnyMatch(records[list[0]], search, matches) then [records[list[0]]] else [];
      assert Select(list + [k], records, search, matches) == head + Select(tail + [k], records, search, matches);
      assert Select(list, records, search, matches) == head + Select(tail, records, search, matches);
    } else {
      assert [k][1..] == [];
    }
  }

  /** When every read and scan succeeds, the listing is the head-first selection: list order kept, each listed record at most once. */
  lemma {:induction false} FilteredIsSelect<R, S>(list: seq<string>, records: map<string, R>, search: seq<S>, isPattern: S -> bool, matches: (R, S) -> bool)
    requires forall i :: 0 <= i < |list| ==> list[i] in records && Scan(records[list[i]], search, isPattern, matches).Some?
    ensures Filtered(list, records, search, isPattern, matches) == Some(Select(list, records, search, matches))
  {
    if list != [] {
      var init := list[..|list| - 1];
      var k := list[|list| - 1];
      assert forall i :: 0 <= i < |init| ==> init[i] == list[i];
      FilteredIsSelect(init, records, search, isPattern, matches);
      assert init + [k] == list;
      assert Readable(k, records, search, isPattern, matches);
      ScanKeeps(records[k], search, isPattern, matches);
      SelectSnoc(init, k, records, search, matches);
    }
  }

  /** The selection holds at most one record per listed key, and holds a record exactly when a listed key maps to it and it matches. */
  lemma {:induction false} SelectContents<R, S>(list: seq<string>, records: map<string, R>, search: seq<S>, matches: (R, S) -> bool, x: R)
    requires forall i :: 0 <= i < |list| ==> list[i] in records
    ensures |Select(list, records, search, matches)| <= |list|
    ensures x in Select(list, records, search, matches)
        <==> exists i :: 0 <= i < |list| && records[list[i]] == x && AnyMatch(x, search, matches)
  {
    if list != [] {
      SelectContents(list[1..], records, search, matches, x);
      assert forall i :: 1 <= i < |list| ==> list[1..][i - 1] == list[i];
      if x in Select(list[1..], records, search, matches) {
        var i :| 0 <= i < |list[1..]| && records[list[1..][i]] == x && AnyMatch(x, search, matches);
        assert records[list[i + 1]] == x;
      }
    }
  }
}
