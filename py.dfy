/** Python built-ins the source applies to loaded values: iteration,
    `int(x)`, `bool(strtobool(x))` and `str(x)`. */
module Py {
  import opened Base
  import opened Text
  import opened Json

  /** `for x in j`: a list's items, a dict's keys, a string's characters;
      anything else is not iterable. */
  function Iterate(j: Json): (r: Result<seq<Json>>)
    ensures j.JList? ==> r == Ok(j.items)
    ensures r.Err? <==> !(j.JList? || j.JObj? || j.JStr?)
  {
    match j
    case JList(xs) => Ok(xs)
    case JObj(fs) => Ok(seq(|fs|, i requires 0 <= i < |fs| => JStr(fs[i].key)))
    case JStr(s) => Ok(seq(|s|, i requires 0 <= i < |s| => JStr([s[i]])))
    case _ => Err(TypeError("object is not iterable"))
  }

  /** `int(j)`: ints as they are, bools as 0 and 1, decimal strings parsed
      (ValueError otherwise), anything else a TypeError. */
  function PyInt(j: Json): (r: Result<int>)
    ensures j.JInt? ==> r == Ok(j.i)
    ensures j.JStr? ==> (r.Ok? <==> ParseInt(j.s).Some?)
    ensures r.Err? && j.JStr? ==> r.error == ValueError("int")
  {
    match j
    case JInt(i) => Ok(i)
    case JBool(b) => Ok(if b then 1 else 0)
    case JStr(s) => if ParseInt(s).Some? then Ok(ParseInt(s).value) else Err(ValueError("int"))
    case _ => Err(TypeError("int"))
  }

  /** `bool(strtobool(j))`: only strings have the `lower` it calls. */
  function PyStrToBool(j: Json): (r: Result<bool>)
    ensures r.Ok? <==> j.JStr? && StrToBool(j.s).Some?
  {
    if !j.JStr? then Err(AttributeError("lower"))
    else match StrToBool(j.s)
      case Some(b) => Ok(b)
      case None => Err(ValueError("strtobool"))
  }

  /** `str(j)`; a list's or dict's text is the given `repr`. */
  function Str(j: Json, repr: Json -> string): (r: string)
    ensures j.JStr? ==> r == j.s
    ensures j.JInt? ==> r == IntToString(j.i)
  {
    match j
    case JNull => "None"
    case JBool(b) => if b then "True" else "False"
    case JInt(i) => IntToString(i)
    case JStr(s) => s
    case _ => repr(j)
  }

  /** `int(str(i)) == i`, so an integer parameter always passes `int()`. */
  lemma PyIntOfStr(i: int, repr: Json -> string)
    ensures PyInt(JStr(Str(JInt(i), repr))) == Ok(i)
  {
    ParseIntOfIntToString(i);
  }
}
