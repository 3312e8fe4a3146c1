/** ozpcenter/util/expect.py: property lookup on a mapping or an object.
    A mapping is looked up by key, an object by attribute name; both are a
    map from names to values here, and a stored value may be None (`JNull`). */
module Expect {
  import opened Wrappers
  import opened Exceptions
  import opened Json
  import opened Maybes

  datatype Mappable =
    | Mapping(entries: map<string, Json>, typeName: string)
    | Object(attrs: map<string, Json>, typeName: string)
  {
    function Props(): map<string, Json> {
      match this
      case Mapping(entries, _) => entries
      case Object(attrs, _) => attrs
    }
  }

  /** `prop_of`: the value under `name`, or AssertionError when the key or
      attribute is missing. */
  function PropOf(obj: Mappable, name: string): (r: Result<Json, Exception>)
    ensures r.Ok? <==> name in obj.Props()
    ensures r.Ok? ==> r.value == obj.Props()[name]
    ensures r.Err? ==> r.error == AssertionError("property '" + name + "' : no " + (if obj.Mapping? then "key" else "attr")
                                                  + " in '" + obj.typeName + "'")
  {
    match obj
    case Mapping(entries, t) =>
      if name !in entries then
        assert "property '" + name + "' : no key in '" + t + "'" == "property '" + name + "' : no " + "key" + " in '" + t + "'";
        Err(AssertionError("property '" + name + "' : no key in '" + t + "'"))
      else Ok(entries[name])
    case Object(attrs, t) =>
      if name !in attrs then
        assert "property '" + name + "' : no attr in '" + t + "'" == "property '" + name + "' : no " + "attr" + " in '" + t + "'";
        Err(AssertionError("property '" + name + "' : no attr in '" + t + "'"))
      else Ok(attrs[name])
  }

  /** `maybe_prop_of`: empty for a missing or None property. */
  function MaybePropOf(obj: Mappable, name: string): (m: Maybe<Json>)
    ensures m.isEmpty <==> (name !in obj.Props() || obj.Props()[name] == JNull)
    ensures !m.isEmpty ==> Value(m) == Ok(Some(obj.Props()[name]))
  {
    var props := obj.Props();
    if name !in props then Empty()
    else ValueOf(if props[name] == JNull then None else Some(props[name]))
  }

  /** `nullable_prop_of`: never fails; None for a missing property. */
  function NullablePropOf(obj: Mappable, name: string): (v: Json)
    ensures name !in obj.Props() ==> v == JNull
    ensures name in obj.Props() ==> v == obj.Props()[name]
  {
    match obj
    case Mapping(entries, _) => if name !in entries then JNull else entries[name]
    case Object(attrs, _) => if name !in attrs then JNull else attrs[name]
  }

  /** `nullable_prop_of` agrees with `prop_of` wherever `prop_of` succeeds, and
      is empty-or-None exactly where `maybe_prop_of` is empty. */
  lemma NullableAgreesWithPropOf(obj: Mappable, name: string)
    ensures PropOf(obj, name).Ok? ==> NullablePropOf(obj, name) == PropOf(obj, name).value
    ensures MaybePropOf(obj, name).isEmpty <==> NullablePropOf(obj, name) == JNull
  {
  }

  /** `format_message`: "message : default" when a non-empty message is
      given, else the default message alone. */
  function FormatMessage(defaultMessage: string, message: Option<string>): (s: string)
    ensures message.Some? && message.value != "" ==> s == message.value + " : " + defaultMessage
    ensures message.None? || message.value == "" ==> s == defaultMessage
  {
    if message.Some? && message.value != "" then message.value + " : " + defaultMessage else defaultMessage
  }
}
