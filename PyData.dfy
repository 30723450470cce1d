/** The value tree that xmltodict.parse produces from the provider's reply,
    and the Python operations the gateway applies to it: `d.get(k, default)`,
    `d[k]`, `k in x`, iteration, `int(x)` and `float(x)`. Each operation
    returns the exception Python raises when the value has the wrong kind. */
module PyData {
  import opened Wrappers
  import Numbers

  /** None (an empty element), a str (a text-only element), a list (a
      repeated element) or a dict (an element with children or attributes). */
  datatype Node =
    | Null
    | Text(s: string)
    | List(items: seq<Node>)
    | Map(entries: seq<(string, Node)>)

  /** The `{}` default of a `.get` call. */
  const EmptyMap: Node := Map([])

  /** The exceptions that can reach the gateway's caller. */
  datatype Exc =
    | AttributeError            // `.get` on a value that is not a dict
    | TypeError                 // subscript, `in`, iteration or int() on the wrong kind of value
    | KeyError(key: string)     // `d[k]` with `k` absent
    | ValueError                // int() or float() of text that is not a numeral
    | ValidationError           // a record field of the wrong type, refused by the response schema
    | ExpatError                // the provider's reply is not well-formed XML
    | TransportError            // the SOAP client raised something other than a Fault
    | HttpException(statusCode: int, detail: Detail)

  /** The `detail` dict of an HTTPException: `{"error": ..., "message": ...}`. */
  datatype Detail = Detail(error: string, message: Message)

  /** A message is either the text of the status subtree or the exception that was caught. */
  datatype Message = StatusText(status: Node) | Raised(cause: Exc)

  predicate HasKey(entries: seq<(string, Node)>, key: string) {
    exists i :: 0 <= i < |entries| && entries[i].0 == key
  }

  /** Dict lookup: the value stored under `key`. */
  function Lookup(entries: seq<(string, Node)>, key: string): (r: Option<Node>)
    ensures r.Some? <==> HasKey(entries, key)
    ensures r.Some? ==> (key, r.value) in entries
  {
    if entries == [] then None
    else if entries[0].0 == key then Some(entries[0].1)
    else
      var r := Lookup(entries[1..], key);
      assert HasKey(entries, key) <==> HasKey(entries[1..], key) by {
        if HasKey(entries, key) {
          var i :| 0 <= i < |entries| && entries[i].0 == key;
          assert entries[1..][i - 1].0 == key;
        }
        if HasKey(entries[1..], key) {
          var i :| 0 <= i < |entries[1..]| && entries[1..][i].0 == key;
          assert entries[i + 1].0 == key;
        }
      }
      r
  }

  /** `x.get(key, default)`. */
  function Get(x: Node, key: string, default: Node): (r: Result<Node, Exc>)
    ensures r.Err? <==> !x.Map?
    ensures r.Err? ==> r.error == AttributeError
    ensures x.Map? && HasKey(x.entries, key) ==> r == Ok(Lookup(x.entries, key).value)
    ensures x.Map? && !HasKey(x.entries, key) ==> r == Ok(default)
  {
    match x
    case Map(entries) =>
      (match Lookup(entries, key)
       case Some(v) => Ok(v)
       case None => Ok(default))
    case _ => Err(AttributeError)
  }

  /** `x[key]`. */
  function Subscript(x: Node, key: string): (r: Result<Node, Exc>)
    ensures r.Ok? <==> x.Map? && HasKey(x.entries, key)
    ensures r.Ok? ==> (key, r.value) in x.entries
    ensures r.Err? ==> r.error == if x.Map? then KeyError(key) else TypeError
  {
    match x
    case Map(entries) =>
      (match Lookup(entries, key)
       case Some(v) => Ok(v)
       case None => Err(KeyError(key)))
    case _ => Err(TypeError)
  }

  /** `x[k0][k1]...`, left to right, stopping at the first exception. */
  function SubscriptPath(x: Node, path: seq<string>): (r: Result<Node, Exc>)
    ensures r.Err? ==> r.error.KeyError? || r.error == TypeError
  {
    if path == [] then Ok(x)
    else
      var child :- Subscript(x, path[0]);
      SubscriptPath(child, path[1..])
  }

  /** `sub in s` for two strings. */
  function IsSubstring(sub: string, s: string): (r: bool)
    ensures r <==> exists i :: 0 <= i <= |s| && sub <= s[i..]
    decreases |s|
  {
    if sub <= s then
      assert s[0..] == s;
      true
    else if s == [] then false
    else
      var r := IsSubstring(sub, s[1..]);
      assert r <==> exists i :: 0 <= i <= |s| && sub <= s[i..] by {
        if r {
          var j :| 0 <= j <= |s[1..]| && sub <= s[1..][j..];
          assert s[1..][j..] == s[j + 1..];
        }
        if exists i :: 0 <= i <= |s| && sub <= s[i..] {
          var i :| 0 <= i <= |s| && sub <= s[i..];
          assert i != 0;
          assert s[1..][i - 1..] == s[i..];
        }
      }
      r
  }

  /** `item in x` for a str `item`: dict key, substring or list member;
      TypeError on None. */
  function Contains(x: Node, item: string): (r: Result<bool, Exc>)
    ensures r.Err? <==> x.Null?
    ensures r.Err? ==> r.error == TypeError
    ensures x.Map? ==> r == Ok(HasKey(x.entries, item))
    ensures x.Text? ==> r == Ok(IsSubstring(item, x.s))
    ensures x.List? ==> r == Ok(Text(item) in x.items)
  {
    match x
    case Null => Err(TypeError)
    case Text(s) => Ok(IsSubstring(item, s))
    case List(items) => Ok(Text(item) in items)
    case Map(entries) => Ok(HasKey(entries, item))
  }

  function Keys(entries: seq<(string, Node)>): (r: seq<Node>)
    ensures |r| == |entries|
    ensures forall i :: 0 <= i < |r| ==> r[i] == Text(entries[i].0)
  {
    if entries == [] then [] else [Text(entries[0].0)] + Keys(entries[1..])
  }

  function Chars(s: string): (r: seq<Node>)
    ensures |r| == |s|
    ensures forall i :: 0 <= i < |s| ==> r[i] == Text([s[i]])
  {
    if s == [] then [] else [Text([s[0]])] + Chars(s[1..])
  }

  /** `for item in x`: the items of a list, the keys of a dict, the
      characters of a str; TypeError on None. */
  function Iterate(x: Node): (r: Result<seq<Node>, Exc>)
    ensures r.Err? <==> x.Null?
    ensures r.Err? ==> r.error == TypeError
    ensures x.List? ==> r == Ok(x.items)
    ensures x.Map? ==>
              r.Ok? && |r.value| == |x.entries| &&
              forall i :: 0 <= i < |x.entries| ==> r.value[i] == Text(x.entries[i].0)
    ensures x.Text? ==>
              r.Ok? && |r.value| == |x.s| &&
              forall i :: 0 <= i < |x.s| ==> r.value[i] == Text([x.s[i]])
  {
    match x
    case Null => Err(TypeError)
    case Text(s) => Ok(Chars(s))
    case List(items) => Ok(items)
    case Map(entries) => Ok(Keys(entries))
  }

  /** `int(x)`: a numeral text converts, other text is a ValueError, any other
      kind of value a TypeError. */
  function PyInt(x: Node): (r: Result<int, Exc>)
    ensures r.Ok? <==> x.Text? && Numbers.ParseInt(x.s).Some?
    ensures r.Ok? ==> Numbers.ParseInt(x.s) == Some(r.value)
    ensures r.Err? ==> r.error == if x.Text? then ValueError else TypeError
  {
    match x
    case Text(s) =>
      (match Numbers.ParseInt(s)
       case Some(n) => Ok(n)
       case None => Err(ValueError))
    case _ => Err(TypeError)
  }

  /** `float(x)`, with the same failure kinds as int(). */
  function PyFloat(x: Node): (r: Result<real, Exc>)
    ensures r.Ok? <==> x.Text? && Numbers.ParseFloat(x.s).Some?
    ensures r.Ok? ==> Numbers.ParseFloat(x.s) == Some(r.value)
    ensures r.Err? ==> r.error == if x.Text? then ValueError else TypeError
  {
    match x
    case Text(s) =>
      (match Numbers.ParseFloat(s)
       case Some(v) => Ok(v)
       case None => Err(ValueError))
    case _ => Err(TypeError)
  }
}
