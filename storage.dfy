/** The demo application's shared favourites store: a list of `{ id }`
    records, appended to by `like` and cut by `dislike`, searched from the
    front by id. */
module Storage {
  import opened Wrappers
  import opened Platform

  datatype Favorite = Favorite(id: int)

  /** The position of the first favourite with id `id`, or -1. */
  function Position(favorites: seq<Favorite>, id: int): (i: int)
    ensures -1 <= i < |favorites|
    ensures i == -1 <==> forall k :: 0 <= k < |favorites| ==> favorites[k].id != id
    ensures 0 <= i ==> favorites[i].id == id && forall k :: 0 <= k < i ==> favorites[k].id != id
    decreases |favorites|
  {
    if favorites == [] then -1
    else if favorites[0].id == id then 0
    else
      var rest := Position(favorites[1..], id);
      assert forall k :: 1 <= k < |favorites| ==> favorites[k] == favorites[1..][k - 1];
      if rest == -1 then -1 else rest + 1
  }

  /** The first favourite with id `id`, if any (what `find` returns). */
  function Lookup(favorites: seq<Favorite>, id: int): (r: Option<Favorite>)
    ensures r.Some? ==> r.value.id == id
    decreases |favorites|
  {
    if favorites == [] then None
    else if favorites[0].id == id then Some(favorites[0])
    else Lookup(favorites[1..], id)
  }

  /** `find` and `findIndex` agree: the record `find` returns sits where
      `findIndex` points, and one is undefined exactly when the other is -1. */
  lemma {:induction false} LookupAtPosition(favorites: seq<Favorite>, id: int)
    ensures Lookup(favorites, id).None? <==> Position(favorites, id) == -1
    ensures Lookup(favorites, id).Some? ==> Lookup(favorites, id).value == favorites[Position(favorites, id)]
    decreases |favorites|
  {
    if favorites != [] && favorites[0].id != id {
      LookupAtPosition(favorites[1..], id);
    }
  }

  /** The list with the entry at `index` taken out: `splice(index, 1)`. */
  function Without(favorites: seq<Favorite>, index: nat): (r: seq<Favorite>)
    requires index < |favorites|
    ensures |r| == |favorites| - 1
    ensures multiset(r) + multiset{favorites[index]} == multiset(favorites)
  {
    assert favorites == favorites[..index] + [favorites[index]] + favorites[index + 1..];
    favorites[..index] + favorites[index + 1..]
  }

  /** How many favourites carry id `id`. */
  function Count(favorites: seq<Favorite>, id: int): nat {
    multiset(favorites)[Favorite(id)]
  }

  class Favorites {
    /** `_Storage.favorites`, in insertion order. */
    var favorites: seq<Favorite>

    /** The store as first created: empty. */
    constructor()
      ensures favorites == []
    {
      favorites := [];
    }

    /** `indexOf(id)`: `findIndex` on the list. */
    method IndexOf(id: int) returns (index: int)
      ensures index == Position(favorites, id)
    {
      var i := 0;
      while i < |favorites|
        invariant 0 <= i <= |favorites|
        invariant forall k :: 0 <= k < i ==> favorites[k].id != id
      {
        if favorites[i].id == id {
          return i;
        }
        i := i + 1;
      }
      return -1;
    }

    /** `find` on the list. */
    method Find(id: int) returns (found: Option<Favorite>)
      ensures found == Lookup(favorites, id)
    {
      var i := 0;
      while i < |favorites|
        invariant 0 <= i <= |favorites|
        invariant Lookup(favorites, id) == Lookup(favorites[i..], id)
      {
        assert favorites[i..][1..] == favorites[i + 1..];
        if favorites[i].id == id {
          return Some(favorites[i]);
        }
        i := i + 1;
      }
      return None;
    }

    /** `exists(id)`: some favourite has this id. */
    method Exists(id: int) returns (b: bool)
      ensures b <==> exists k :: 0 <= k < |favorites| && favorites[k].id == id
    {
      var index := IndexOf(id);
      b := index != -1;
    }

    /** `isLiked(id)`: `find` found a record. */
    method IsLiked(id: int) returns (b: bool)
      ensures b <==> exists k :: 0 <= k < |favorites| && favorites[k].id == id
    {
      var found := Find(id);
      LookupAtPosition(favorites, id);
      b := found.Some?;
    }

    /** `isDisliked(id)`: `find` found nothing, the negation of `isLiked`. */
    method IsDisliked(id: int) returns (b: bool)
      ensures b <==> forall k :: 0 <= k < |favorites| ==> favorites[k].id != id
    {
      var found := Find(id);
      LookupAtPosition(favorites, id);
      b := found.None?;
    }

    /** `like(id)`: appends `{ id }` without looking for an existing one, and
        returns it. */
    method Like(id: int) returns (data: Favorite)
      modifies this
      ensures data == Favorite(id) && data.id == id
      ensures favorites == old(favorites) + [data]
    {
      data := Favorite(id);
      favorites := favorites + [data];
    }

    /** `dislike(id)`: throws a bare `Error` and changes nothing when no
        favourite has the id; otherwise removes the first one that has it. */
    method Dislike(id: int) returns (r: Result<(), Thrown>)
      modifies this
      ensures Position(old(favorites), id) == -1 ==> r == Err(Error("Error", "")) && favorites == old(favorites)
      ensures Position(old(favorites), id) != -1 ==> r.Ok? && favorites == Without(old(favorites), Position(old(favorites), id))
    {
      var index := IndexOf(id);
      if index == -1 {
        return Err(Error("Error", ""));
      }
      favorites := favorites[..index] + favorites[index + 1..];
      return Ok(());
    }
  }

  /** `dislike` on a present id removes exactly one favourite with that id,
      keeps every other favourite, and keeps their order. */
  lemma DislikeRemovesOne(favorites: seq<Favorite>, id: int)
    requires Position(favorites, id) != -1
    ensures var after := Without(favorites, Position(favorites, id));
      Count(after, id) + 1 == Count(favorites, id) &&
      (forall other :: other != id ==> Count(after, other) == Count(favorites, other)) &&
      after == favorites[..Position(favorites, id)] + favorites[Position(favorites, id) + 1..]
  {
    var i := Position(favorites, id);
    assert favorites[i] == Favorite(id);
  }

  /** `like` then `dislike` of an id not yet liked restores the list; when
      the id was already liked, the earlier entry goes and the new one stays,
      so the list keeps the same favourites but not the same order. */
  lemma LikeThenDislike(favorites: seq<Favorite>, id: int)
    ensures var liked := favorites + [Favorite(id)];
      Position(liked, id) != -1 &&
      (Position(favorites, id) == -1 ==> Without(liked, Position(liked, id)) == favorites) &&
      (Position(favorites, id) != -1 ==>
         Without(liked, Position(liked, id)) == Without(favorites, Position(favorites, id)) + [Favorite(id)] &&
         multiset(Without(liked, Position(liked, id))) == multiset(favorites))
  {
    var liked := favorites + [Favorite(id)];
    PositionInPrefix(favorites, [Favorite(id)], id);
    if Position(favorites, id) == -1 {
      assert liked[|favorites|].id == id;
      assert Position(liked, id) == |favorites|;
      assert liked[..|favorites|] == favorites;
    } else {
      var i := Position(favorites, id);
      assert liked[..i] == favorites[..i];
      assert liked[i + 1..] == favorites[i + 1..] + [Favorite(id)];
      assert Without(favorites, i) + [Favorite(id)] == favorites[..i] + (favorites[i + 1..] + [Favorite(id)]);
      assert favorites[i] == Favorite(id);
    }
  }

  /** Appending never moves the first match of an id already present. */
  lemma PositionInPrefix(favorites: seq<Favorite>, more: seq<Favorite>, id: int)
    ensures Position(favorites, id) != -1 ==> Position(favorites + more, id) == Position(favorites, id)
  {
    if Position(favorites, id) != -1 {
      var i := Position(favorites, id);
      assert (favorites + more)[i].id == id;
      assert forall k :: 0 <= k < i ==> (favorites + more)[k] == favorites[k];
    }
  }

  /** Liking twice leaves two entries: `like` allows duplicates. */
  lemma LikeTwiceDuplicates(favorites: seq<Favorite>, id: int)
    ensures Count(favorites + [Favorite(id)] + [Favorite(id)], id) == Count(favorites, id) + 2
  {
  }
}
