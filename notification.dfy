/** ozpcenter/models/notification.py: the `peer` property of a notification.
    The column `_peer` holds JSON text; encoding and decoding are taken as
    the identity on an object, so the column is the object itself, and None
    stands for an empty column. */
module Notifications {
  import opened Wrappers
  import opened Exceptions
  import opened Json

  const WrongTypeMessage: string := "Argument of wrong type is not a dict"

  /** The shape the setter keeps: only the four known keys, `user` reduced
      to at most its username, `deleted_folder` always True. */
  predicate Sanitized(m: map<string, Json>) {
    && (forall k :: k in m ==> k in {"user", "folder_name", "_bookmark_listing_ids", "deleted_folder"})
    && ("user" in m ==> m["user"].JObj? && forall k :: k in m["user"].fields ==> k == "username")
    && ("deleted_folder" in m ==> m["deleted_folder"] == JBool(true))
  }

  /** Copies `key` from `value` into `temp` when present. */
  function CopyIfPresent(temp: map<string, Json>, value: map<string, Json>, key: string): map<string, Json> {
    if key in value then temp[key := value[key]] else temp
  }

  /** The dict `temp` the setter builds from a dict value, or the
      AssertionError it raises when `user` is not a dict. */
  function Sanitize(value: map<string, Json>): (r: Result<map<string, Json>, Exception>)
    ensures r.Err? <==> "user" in value && !value["user"].JObj?
    ensures r.Err? ==> r.error == AssertionError(WrongTypeMessage)
    ensures r.Ok? ==> Sanitized(r.value)
    ensures r.Ok? ==> forall k :: k in r.value <==> k in value && k in {"user", "folder_name", "_bookmark_listing_ids", "deleted_folder"}
    ensures r.Ok? && "user" in value ==>
      ("username" in r.value["user"].fields <==> "username" in value["user"].fields)
      && ("username" in value["user"].fields ==>
            r.value["user"].fields["username"] == value["user"].fields["username"])
    ensures r.Ok? ==> forall k :: k in {"folder_name", "_bookmark_listing_ids"} && k in value ==> r.value[k] == value[k]
  {
    var withUser: map<string, Json> :=
      if "user" !in value then map[]
      else if !value["user"].JObj? then map[]
      else
        var current := value["user"].fields;
        map["user" := JObj(if "username" in current then map["username" := current["username"]] else map[])];
    if "user" in value && !value["user"].JObj? then Err(AssertionError(WrongTypeMessage))
    else
      var temp := CopyIfPresent(CopyIfPresent(withUser, value, "folder_name"), value, "_bookmark_listing_ids");
      Ok(if "deleted_folder" in value then temp["deleted_folder" := JBool(true)] else temp)
  }

  /** Sanitizing what is already sanitized changes nothing. */
  lemma SanitizeFixesSanitized(m: map<string, Json>)
    requires Sanitized(m)
    ensures Sanitize(m) == Ok(m)
  {
    var r := Sanitize(m).value;
    assert r.Keys == m.Keys;
    forall k | k in m ensures r[k] == m[k] {
      if k == "user" {
        assert m["user"].fields.Keys <= {"username"};
        if "username" in m["user"].fields {
          assert m["user"].fields == map["username" := m["user"].fields["username"]];
        } else {
          assert m["user"].fields == map[];
        }
      }
    }
    assert r == m;
  }

  class Notification {
    var message: string
    /** `_peer`: None when the column is empty. */
    var peerColumn: Option<map<string, Json>>

    ghost predicate Valid()
      reads this
    {
      peerColumn.Some? ==> Sanitized(peerColumn.value)
    }

    constructor (message: string)
      ensures Valid() && this.message == message && peerColumn.None?
    {
      this.message := message;
      peerColumn := None;
    }

    /** The `peer` getter: None for an empty column, else the stored object. */
    function Peer(): (v: Json)
      reads this
      ensures peerColumn.None? <==> v == JNull
      ensures peerColumn.Some? ==> v == JObj(peerColumn.value)
    {
      if peerColumn.None? then JNull else JObj(peerColumn.value)
    }

    /** The `peer` setter: a falsy value leaves the column alone; a non-dict
        value, or a non-dict `user`, fails an assertion; a dict is stored
        sanitized. */
    method SetPeer(value: Json) returns (r: Result<(), Exception>)
      requires Valid()
      modifies this`peerColumn
      ensures Valid()
      ensures !Truthy(value) ==> r.Ok? && peerColumn == old(peerColumn)
      ensures Truthy(value) && !value.JObj? ==> r == Err(AssertionError(WrongTypeMessage)) && peerColumn == old(peerColumn)
      ensures Truthy(value) && value.JObj? ==>
        match Sanitize(value.fields)
        case Ok(m) => r.Ok? && peerColumn == Some(m)
        case Err(e) => r == Err(e) && peerColumn == old(peerColumn)
    {
      if !Truthy(value) {
        return Ok(());
      }
      if !value.JObj? {
        return Err(AssertionError(WrongTypeMessage));
      }
      var s := Sanitize(value.fields);
      if s.Err? {
        return Err(s.error);
      }
      peerColumn := Some(s.value);
      return Ok(());
    }

    /** `n.peer = n.peer` leaves the notification as it was. */
    method ResetPeer() returns (r: Result<(), Exception>)
      requires Valid()
      modifies this`peerColumn
      ensures Valid() && r.Ok? && peerColumn == old(peerColumn)
    {
      var current := Peer();
      if current.JObj? {
        SanitizeFixesSanitized(current.fields);
      }
      r := SetPeer(current);
    }
  }
}
