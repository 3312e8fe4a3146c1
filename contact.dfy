/** ozpcenter/models/contact.py: a listing's contact, its phone-number
    validation and its two string forms. */
module Contacts {
  import opened Wrappers

  datatype Contact = Contact(name: string, email: string, organization: Option<string>,
                             securePhone: Option<string>, unsecurePhone: Option<string>,
                             contactType: nat)

  /** Python truthiness of an optional string: None and '' are false. */
  predicate Present(s: Option<string>) {
    s.Some? && s.value != ""
  }

  /** `x if x else ''`. */
  function OrEmpty(s: Option<string>): (r: string)
    ensures Present(s) ==> r == s.value
    ensures !Present(s) ==> r == ""
  {
    if Present(s) then s.value else ""
  }

  const BlankPhonesMessage: string := "Both phone numbers cannot be blank"

  /** `clean`: None when the contact is valid, otherwise the error dict
      of the ValidationError it raises. */
  function Clean(c: Contact): (errors: Option<map<string, string>>)
    ensures errors.Some? <==> !Present(c.securePhone) && !Present(c.unsecurePhone)
    ensures errors.Some? ==> errors.value.Keys == {"secure_phone"}
                             && errors.value["secure_phone"] == BlankPhonesMessage
  {
    if !Present(c.securePhone) && !Present(c.unsecurePhone) then
      Some(map["secure_phone" := BlankPhonesMessage])
    else None
  }

  /** `__str__`: "name: email". */
  function Str(c: Contact): (s: string)
    ensures |s| == |c.name| + 2 + |c.email|
    ensures s[..|c.name|] == c.name && s[|c.name|..|c.name| + 2] == ": "
    ensures s[|c.name| + 2..] == c.email
  {
    c.name + ": " + c.email
  }

  /** `__repr__`: name and email, then each optional field after its label;
      a missing value and an empty one print alike. */
  function Repr(c: Contact): (s: string)
    ensures |s| == |c.name| + |c.email| + 2 + |"organization "| + |OrEmpty(c.organization)|
                   + |"secure_phone "| + |OrEmpty(c.securePhone)|
                   + |"unsecure_phone "| + |OrEmpty(c.unsecurePhone)|
    ensures s[..|c.name| + 2 + |c.email|] == c.name + ", " + c.email
    ensures var a := |c.name| + 2 + |c.email|;
            var b := a + |"organization "| + |OrEmpty(c.organization)|;
            var e := b + |"secure_phone "| + |OrEmpty(c.securePhone)|;
            s[a..b] == "organization " + OrEmpty(c.organization)
            && s[b..e] == "secure_phone " + OrEmpty(c.securePhone)
            && s[e..] == "unsecure_phone " + OrEmpty(c.unsecurePhone)
  {
    c.name + ", " + c.email
      + "organization " + OrEmpty(c.organization)
      + "secure_phone " + OrEmpty(c.securePhone)
      + "unsecure_phone " + OrEmpty(c.unsecurePhone)
  }

  /** A missing optional field and an empty one print alike in `__repr__`. */
  lemma ReprMissingAsEmpty(c: Contact)
    ensures Repr(c.(organization := None)) == Repr(c.(organization := Some("")))
    ensures Repr(c.(securePhone := None)) == Repr(c.(securePhone := Some("")))
    ensures Repr(c.(unsecurePhone := None)) == Repr(c.(unsecurePhone := Some("")))
  {
  }
}
