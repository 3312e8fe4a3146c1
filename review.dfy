/** ozpcenter/models/review.py: the duplicate-review guard that runs before
    every save. The review table maps primary keys to rows. */
module Reviews {
  import opened Wrappers
  import opened Exceptions

  datatype Review = Review(external: bool, parent: Option<nat>, author: nat,
                           listing: nat, rate: int, text: Option<string>)

  const DuplicateMessage: string := "Can not create duplicate review"

  /** A top-level (not a reply) review that was not imported. */
  predicate InternalTopLevel(r: Review) {
    !r.external && r.parent.None?
  }

  /** No two internal top-level reviews share an author and a listing. */
  ghost predicate NoDuplicates(reviews: map<nat, Review>) {
    forall a, b :: a in reviews && b in reviews && a != b
      && InternalTopLevel(reviews[a]) && InternalTopLevel(reviews[b])
      ==> reviews[a].author != reviews[b].author || reviews[a].listing != reviews[b].listing
  }

  /** Python truthiness of the primary key: None and 0 are false. */
  predicate PkTruthy(pk: Option<nat>) {
    pk.Some? && pk.value != 0
  }

  /** The rows the duplicate query finds for a candidate with key `pk`: same
      author and listing, not the candidate's own row, top level. */
  predicate Clashes(reviews: map<nat, Review>, pk: Option<nat>, r: Review, id: nat)
    requires id in reviews
  {
    reviews[id].author == r.author && reviews[id].listing == r.listing
    && !(PkTruthy(pk) && id == pk.value)
    && reviews[id].parent.None?
  }

  class ReviewTable {
    var reviews: map<nat, Review>
    var nextId: nat

    ghost predicate Valid()
      reads this
    {
      NoDuplicates(reviews) && forall id :: id in reviews ==> id < nextId
    }

    constructor ()
      ensures Valid() && reviews == map[]
    {
      reviews := map[];
      nextId := 1;
    }

    /** `validate_unique`: external reviews and replies always pass; an
        internal top-level review fails when another top-level review by
        the same author on the same listing exists. */
    method ValidateUnique(pk: Option<nat>, r: Review) returns (err: Option<Exception>)
      ensures r.external || r.parent.Some? ==> err.None?
      ensures InternalTopLevel(r) ==>
        (err.Some? <==> exists id :: id in reviews && Clashes(reviews, pk, r, id))
      ensures err.Some? ==> err.value == ValidationError(DuplicateMessage)
    {
      if r.external || r.parent.Some? {
        return None;
      }
      var rest := reviews.Keys;
      while rest != {}
        invariant rest <= reviews.Keys
        invariant forall id :: id in reviews && id !in rest ==> !Clashes(reviews, pk, r, id)
        decreases |rest|
      {
        var id :| id in rest;
        if Clashes(reviews, pk, r, id) {
          return Some(ValidationError(DuplicateMessage));
        }
        rest := rest - {id};
      }
      return None;
    }

    /** `save`: validates, then inserts (no key yet) or overwrites the row
        under the review's key. A rejected save changes nothing. */
    method Save(pk: Option<nat>, r: Review) returns (res: Result<nat, Exception>)
      requires Valid()
      modifies this
      ensures Valid()
      ensures InternalTopLevel(r) && (exists id :: id in old(reviews) && Clashes(old(reviews), pk, r, id)) ==>
                res == Err(ValidationError(DuplicateMessage)) && reviews == old(reviews)
      ensures res.Err? <==> InternalTopLevel(r) && exists id :: id in old(reviews) && Clashes(old(reviews), pk, r, id)
      ensures res.Ok? ==> reviews == old(reviews)[res.value := r]
      ensures nextId == if res.Ok? && res.value >= old(nextId) then res.value + 1 else old(nextId)
      ensures res.Ok? && pk.Some? ==> res.value == pk.value
      ensures res.Ok? && pk.None? ==> res.value !in old(reviews)
      ensures res.Err? ==> reviews == old(reviews)
      ensures (r.external || r.parent.Some?) ==> res.Ok?
    {
      var err := ValidateUnique(pk, r);
      if err.Some? {
        return Err(err.value);
      }
      var id: nat;
      if pk.Some? {
        id := pk.value;
      } else {
        id := nextId;
      }
      if id >= nextId {
        nextId := id + 1;
      }
      reviews := reviews[id := r];
      return Ok(id);
    }
  }
}
