/**
 * The exceptions the ingestion pipeline can raise, and the text `str(e)` gives
 * for them. The view puts that text into the body of its 500 response.
 */
module Errors {
  import opened Wrappers
  import opened JsonData
  import opened Text

  datatype Failure =
      /** `AttributeError`: `.get` called on a value that is not a dict. */
    | NoGetAttribute(typeName: string)
      /** `TypeError`: `Model(**data)` with a `data` that is not a mapping. */
    | NotAMapping(model: string, typeName: string)
      /** `TypeError` from `Model.__init__`: keyword arguments naming no field of the model. */
    | UnexpectedKeywords(model: string, names: seq<string>)
      /** `ValidationError` from `full_clean`, naming the fields that failed, in declaration order. */
    | Invalid(model: string, fields: seq<string>)
      /**
       * `OverflowError` from `float()` in a float field's `to_python`: an int
       * too large for a double. `full_clean` does not catch it.
       */
    | FloatOverflow(field: string)
      /** `ValueError`/`TypeError` from a numeric field's `get_prep_value` during `save`. */
    | NotANumber(field: string, value: Json)
      /** `KeyError` when a component is looked up under a key the components dict lacks. */
    | MissingKey(key: string)
      /** `ValueError` when a one-to-one slot is given a row of another model. */
    | WrongInstance(slot: string, model: string)

  /**
   * Python's `repr` of a string, which is the string between single quotes
   * as long as it holds no quote, backslash or unprintable character. The
   * model, field and keyword names that reach an error message are plain
   * identifiers, for which this is exact.
   */
  function Quoted(s: string): string
  {
    "'" + s + "'"
  }

  /** `", ".join(repr(n) for n in names)`, exact for identifier names as `Quoted` is. */
  function QuotedList(names: seq<string>): string
  {
    if names == [] then ""
    else if |names| == 1 then Quoted(names[0])
    else Quoted(names[0]) + ", " + QuotedList(names[1..])
  }

  /** `repr` of the empty values a numeric field can reach `save` with. */
  function EmptyRepr(v: Json): Option<string>
  {
    match v
    case JStr(s) => if s == "" then Some("''") else None
    case JArray(xs) => if xs == [] then Some("[]") else None
    case JObject(ms) => if ms == [] then Some("{}") else None
    case _ => None
  }

  predicate EndsWith(s: string, suffix: string)
  {
    |suffix| <= |s| && s[|s| - |suffix|..] == suffix
  }

  /** Every name in the list appears quoted in its joined text. */
  lemma {:induction false} QuotedListNames(names: seq<string>)
    ensures forall n :: n in names ==> Contains(QuotedList(names), Quoted(n))
  {
    if |names| == 1 {
      ContainsAt(QuotedList(names), Quoted(names[0]), 0);
    } else if |names| > 1 {
      QuotedListNames(names[1..]);
      var head := Quoted(names[0]) + ", ";
      assert QuotedList(names) == head + QuotedList(names[1..]);
      forall n | n in names
        ensures Contains(QuotedList(names), Quoted(n))
      {
        if n == names[0] {
          assert QuotedList(names) == Quoted(n) + (", " + QuotedList(names[1..]));
          ContainsAt(QuotedList(names), Quoted(n), 0);
        } else {
          assert n in names[1..];
          ContainsInSuffix(head, QuotedList(names[1..]), Quoted(n));
        }
      }
    }
  }

  /**
   * `str(e)`, for the exceptions whose text the model fixes: the `TypeError`
   * for unexpected keywords names the model and quotes every offending name,
   * the `AttributeError` quotes the type, the `KeyError` is the quoted key,
   * a numeric field's text exists exactly for the empty values, and the
   * `OverflowError` text does not name the field.
   */
  function Message(f: Failure): (r: Option<string>)
    ensures f.UnexpectedKeywords? ==>
              r.Some? && StartsAt(r.value, 0, f.model + "() got unexpected keyword arguments: ")
              && forall n :: n in f.names ==> Contains(r.value, Quoted(n))
    ensures f.NoGetAttribute? ==>
              r.Some? && StartsAt(r.value, 0, Quoted(f.typeName))
              && EndsWith(r.value, " object has no attribute 'get'")
    ensures f.NotANumber? ==>
              (r.Some? <==> EmptyRepr(f.value).Some?)
              && (r.Some? ==> StartsAt(r.value, 0, "Field " + Quoted(f.field) + " expected a number but got ")
                              && EndsWith(r.value, "."))
    ensures f.MissingKey? ==> r == Some(Quoted(f.key))
    ensures f.FloatOverflow? ==> r == Some("int too large to convert to float")
    ensures f.NotAMapping? || f.Invalid? || f.WrongInstance? ==> r.None?
  {
    match f
    case NoGetAttribute(t) =>
      var text := Quoted(t) + " object has no attribute 'get'";
      assert text[..|Quoted(t)|] == Quoted(t);
      assert text[|Quoted(t)|..] == " object has no attribute 'get'";
      Some(text)
    case UnexpectedKeywords(m, names) =>
      var prefix := m + "() got unexpected keyword arguments: ";
      var text := prefix + QuotedList(names);
      assert text[..|prefix|] == prefix;
      QuotedListNames(names);
      forall n | n in names ensures Contains(text, Quoted(n)) {
        ContainsInSuffix(prefix, QuotedList(names), Quoted(n));
      }
      Some(text)
    case NotANumber(field, v) =>
      (match EmptyRepr(v)
       case Some(e) =>
         var prefix := "Field " + Quoted(field) + " expected a number but got ";
         var text := prefix + e + ".";
         assert text[..|prefix|] == prefix;
         Some(text)
       case None => None)
    case MissingKey(k) => Some(Quoted(k))
    case FloatOverflow(_) => Some("int too large to convert to float")
    case _ => None
  }
}
