/** The persistence gateway of the gallery (services/storage.ts): two ordered collections, users
    and artworks, kept under two separate keys of the browser's local store, with fixed seed
    data standing in for a key that holds nothing. */
module Storage {
  import opened Types
  import opened CaseFold
  import opened Seqs

  // ---------------------------------------------------------------------------------------------
  // Seed data

  /** The users read when no users are stored: vincent (id "1") and frida (id "2"). */
  function DefaultUsers(): (r: seq<User>)
    ensures |r| == 2
    ensures r[0].id == "1" && r[0].username == "vincent" && r[0].displayName == "Vincent van Gogh"
    ensures r[1].id == "2" && r[1].username == "frida" && r[1].displayName == "Frida Kahlo"
    ensures Lower(r[0].username) != Lower(r[1].username)
  {
    [ User("1", "vincent", "vincent@example.com", "Vincent van Gogh",
           Some("Post-impressionist painter."), None),
      User("2", "frida", "frida@example.com", "Frida Kahlo",
           Some("Artist known for self-portraits."), None) ]
  }

  /** The artworks read when no artworks are stored; `loadTime` is the clock reading taken when
      the gateway was loaded, from which every seed's creation time is counted back. */
  function DefaultArtworks(loadTime: int): (r: seq<Artwork>)
    ensures |r| == 5
    ensures r[0].id == "a1" && r[1].id == "a2" && r[2].id == "a3" && r[3].id == "a4" && r[4].id == "a5"
    ensures forall i :: 0 <= i < |r| ==> r[i].createdAt < loadTime && r[i].critique == None
    // the seeds are listed oldest first
    ensures forall i, j :: 0 <= i < j < |r| ==> r[i].createdAt < r[j].createdAt
  {
    [ Artwork("a1", "1", "vincent", "Starry Night", "A view from my window.",
              "https://picsum.photos/id/10/800/1200", loadTime - 1000000, None),
      Artwork("a2", "1", "vincent", "Sunflowers", "Vibrant yellow blooms.",
              "https://picsum.photos/id/11/1200/800", loadTime - 900000, None),
      Artwork("a3", "2", "frida", "The Two Fridas", "A double self-portrait.",
              "https://picsum.photos/id/12/900/1100", loadTime - 800000, None),
      Artwork("a4", "2", "frida", "Self Portrait", "With thorn necklace.",
              "https://picsum.photos/id/13/1000/1000", loadTime - 700000, None),
      Artwork("a5", "1", "vincent", "Cafe Terrace", "Night at a cafe.",
              "https://picsum.photos/id/14/800/1000", loadTime - 600000, None) ]
  }

  /** Every seed artwork names a seed user as its owner, by id and by username alike. */
  lemma SeedArtworksOwnedBySeedUsers(loadTime: int)
    ensures forall a :: a in DefaultArtworks(loadTime) ==>
              exists u :: u in DefaultUsers() && u.id == a.userId && u.username == a.username
  {
    var us, arts := DefaultUsers(), DefaultArtworks(loadTime);
    forall a | a in arts
      ensures exists u :: u in us && u.id == a.userId && u.username == a.username
    {
      if a.userId == "1" {
        assert us[0] in us;
      } else {
        assert us[1] in us;
      }
    }
  }

  // ---------------------------------------------------------------------------------------------
  // Lookup of a user by username

  /** The case-insensitive comparison of a stored username with a query. */
  predicate UsernameMatches(username: string, query: string)
  {
    Lower(username) == Lower(query)
  }

  /** The index at which `Array.find` stops: the first user whose username matches `query`, or
      `|users|` when none does. */
  function FirstMatch(users: seq<User>, query: string): (k: nat)
    ensures k <= |users|
    ensures forall j :: 0 <= j < k ==> !UsernameMatches(users[j].username, query)
    ensures k < |users| ==> UsernameMatches(users[k].username, query)
    decreases |users|
  {
    if users == [] then 0
    else if UsernameMatches(users[0].username, query) then 0
    else 1 + FirstMatch(users[1..], query)
  }

  /** The first user, in list order, whose username equals `query` up to case; None if none. */
  function FindUser(users: seq<User>, query: string): (r: Option<User>)
    ensures r.None? <==> forall i :: 0 <= i < |users| ==> !UsernameMatches(users[i].username, query)
    ensures r.Some? ==>
              exists k :: 0 <= k < |users| && users[k] == r.value
                          && UsernameMatches(users[k].username, query)
                          && forall j :: 0 <= j < k ==> !UsernameMatches(users[j].username, query)
  {
    var k := FirstMatch(users, query);
    if k < |users| then Some(users[k]) else None
  }

  /** Queries that fold to the same string find the same user ("Vincent" and "vincent"). */
  lemma FindUserCaseInsensitive(users: seq<User>, q1: string, q2: string)
    requires Lower(q1) == Lower(q2)
    ensures FindUser(users, q1) == FindUser(users, q2)
  {
  }

  /** Appending a user never changes an existing match: a later user with a duplicate username
      is only found when no earlier user matches. */
  lemma {:induction false} FindUserAfterAppend(users: seq<User>, u: User, query: string)
    ensures FindUser(users + [u], query) ==
              if FindUser(users, query).Some? then FindUser(users, query)
              else if UsernameMatches(u.username, query) then Some(u)
              else None
  {
    FirstMatchAfterAppend(users, u, query);
  }

  lemma {:induction false} FirstMatchAfterAppend(users: seq<User>, u: User, query: string)
    ensures FirstMatch(users + [u], query) ==
              if FirstMatch(users, query) < |users| then FirstMatch(users, query)
              else if UsernameMatches(u.username, query) then |users|
              else |users| + 1
    decreases |users|
  {
    if users != [] {
      assert (users + [u])[1..] == users[1..] + [u];
      FirstMatchAfterAppend(users[1..], u, query);
    }
  }

  /** Logging in as "Vincent" on a fresh store finds the seed user Vincent van Gogh. */
  lemma SeedLookupIgnoresCase()
    ensures FindUser(DefaultUsers(), "Vincent") == Some(DefaultUsers()[0])
    ensures FindUser(DefaultUsers(), "FRIDA") == Some(DefaultUsers()[1])
  {
  }

  // ---------------------------------------------------------------------------------------------
  // Artwork queries

  /** The test getArtworksByUser applies: the owner id equals `userId` exactly. */
  function OwnedBy(userId: string): Artwork -> bool
  {
    (a: Artwork) => a.userId == userId
  }

  /** The test getArtworksByUsername applies: the stored username equals `username` up to case. */
  function NamedAs(username: string): Artwork -> bool
  {
    (a: Artwork) => UsernameMatches(a.username, username)
  }

  /** The artworks whose owner id is exactly `userId`, in list order. */
  function ArtworksByUser(arts: seq<Artwork>, userId: string): (r: seq<Artwork>)
    ensures forall i :: 0 <= i < |r| ==> r[i] in arts && r[i].userId == userId
    ensures forall i :: 0 <= i < |arts| && arts[i].userId == userId ==> arts[i] in r
  {
    Filter(arts, OwnedBy(userId))
  }

  /** The artworks whose stored username equals `username` up to case, in list order. */
  function ArtworksByUsername(arts: seq<Artwork>, username: string): (r: seq<Artwork>)
    ensures forall i :: 0 <= i < |r| ==> r[i] in arts && UsernameMatches(r[i].username, username)
    ensures forall i :: 0 <= i < |arts| && UsernameMatches(arts[i].username, username) ==> arts[i] in r
  {
    Filter(arts, NamedAs(username))
  }

  /** ArtworksByUser is exactly the order-preserving selection of the owner's artworks: a
      subsequence of the list holding every occurrence of each of them and nothing else. */
  lemma ArtworksByUserExact(arts: seq<Artwork>, userId: string)
    ensures SubsequenceOf(ArtworksByUser(arts, userId), arts)
    ensures forall a :: multiset(ArtworksByUser(arts, userId))[a] ==
                          if a.userId == userId then multiset(arts)[a] else 0
  {
    FilterIsSubsequence(arts, OwnedBy(userId));
    forall a ensures multiset(ArtworksByUser(arts, userId))[a] ==
                       if a.userId == userId then multiset(arts)[a] else 0
    {
      FilterCount(arts, OwnedBy(userId), a);
    }
  }

  /** The same for ArtworksByUsername with the case-insensitive comparison. */
  lemma ArtworksByUsernameExact(arts: seq<Artwork>, username: string)
    ensures SubsequenceOf(ArtworksByUsername(arts, username), arts)
    ensures forall a :: multiset(ArtworksByUsername(arts, username))[a] ==
                          if UsernameMatches(a.username, username) then multiset(arts)[a] else 0
  {
    FilterIsSubsequence(arts, NamedAs(username));
    forall a ensures multiset(ArtworksByUsername(arts, username))[a] ==
                       if UsernameMatches(a.username, username) then multiset(arts)[a] else 0
    {
      FilterCount(arts, NamedAs(username), a);
    }
  }

  /** A public profile shows the same artworks whatever the case of the name in the address. */
  lemma ArtworksByUsernameCaseInsensitive(arts: seq<Artwork>, n1: string, n2: string)
    requires Lower(n1) == Lower(n2)
    ensures ArtworksByUsername(arts, n1) == ArtworksByUsername(arts, n2)
  {
    FilterCongruent(arts, NamedAs(n1), NamedAs(n2));
  }

  // ---------------------------------------------------------------------------------------------
  // List updates performed by the mutations

  /** The list `Array.map` builds in updateArtwork: every artwork with the id of `updated` is
      replaced by it, the others stay where they are. */
  function ReplaceById(arts: seq<Artwork>, updated: Artwork): (r: seq<Artwork>)
    ensures |r| == |arts|
    ensures forall i :: 0 <= i < |arts| ==> r[i].id == arts[i].id
    ensures forall i :: 0 <= i < |arts| && arts[i].id == updated.id ==> r[i] == updated
    ensures forall i :: 0 <= i < |arts| && arts[i].id != updated.id ==> r[i] == arts[i]
  {
    seq(|arts|, i requires 0 <= i < |arts| => if arts[i].id == updated.id then updated else arts[i])
  }

  /** Updating with an id the list does not hold leaves the list as it was. */
  lemma ReplaceByIdAbsent(arts: seq<Artwork>, updated: Artwork)
    requires forall i :: 0 <= i < |arts| ==> arts[i].id != updated.id
    ensures ReplaceById(arts, updated) == arts
  {
  }

  /** Repeating an update changes nothing more. */
  lemma ReplaceByIdIdempotent(arts: seq<Artwork>, updated: Artwork)
    ensures ReplaceById(ReplaceById(arts, updated), updated) == ReplaceById(arts, updated)
  {
  }

  /** The artworks list after saving each of `news` in turn, each one put in front. One step,
      from `arts` to `[news[0]] + arts`, is exactly the list `Store.SaveArtwork` ensures it
      stores (`[artwork] + old(GetArtworks())`), so this is `SaveArtwork` called on each of
      `news` in order. */
  function AfterSaves(arts: seq<Artwork>, news: seq<Artwork>): seq<Artwork>
    decreases |news|
  {
    if news == [] then arts else AfterSaves([news[0]] + arts, news[1..])
  }

  /** Newest first for every sequence of saves: the last artwork saved comes first and the list
      read before the saves follows all the new ones, unchanged. */
  lemma {:induction false} AfterSavesNewestFirst(arts: seq<Artwork>, news: seq<Artwork>)
    ensures AfterSaves(arts, news) == Reversed(news) + arts
    decreases |news|
  {
    if news != [] {
      AfterSavesNewestFirst([news[0]] + arts, news[1..]);
      assert Reversed(news) == Reversed(news[1..]) + [news[0]];
    }
  }

  /** An artwork just saved heads its owner's profile, ahead of all the owner's older artworks. */
  lemma SavedArtworkHeadsOwnerList(arts: seq<Artwork>, a: Artwork)
    ensures ArtworksByUser([a] + arts, a.userId) == [a] + ArtworksByUser(arts, a.userId)
    ensures ArtworksByUsername([a] + arts, a.username) == [a] + ArtworksByUsername(arts, a.username)
  {
  }

  // ---------------------------------------------------------------------------------------------
  // The gateway object

  /** The gateway with the two keys it owns. `None` in a field means the key holds nothing, and
      every read of that key then falls back to the seeds. The keys are distinct, so writing one
      collection never touches the other. */
  class Store {
    var users: Option<seq<User>>
    var artworks: Option<seq<Artwork>>
    /** The clock reading taken when the gateway was loaded; the seeds' times count back from it. */
    const loadTime: int

    /** A gateway over whatever the two keys hold when the page loads. */
    constructor (loadTime: int, users: Option<seq<User>>, artworks: Option<seq<Artwork>>)
      ensures this.loadTime == loadTime && this.users == users && this.artworks == artworks
    {
      this.loadTime := loadTime;
      this.users := users;
      this.artworks := artworks;
    }

    /** The stored users, or the seed users when none are stored. */
    function GetUsers(): (r: seq<User>)
      reads this
      ensures users.Some? ==> r == users.value
      ensures users.None? ==> r == DefaultUsers()
    {
      match users
      case Some(us) => us
      case None => DefaultUsers()
    }

    /** The stored artworks, or the seed artworks when none are stored. */
    function GetArtworks(): (r: seq<Artwork>)
      reads this
      ensures artworks.Some? ==> r == artworks.value
      ensures artworks.None? ==> r == DefaultArtworks(loadTime)
    {
      match artworks
      case Some(arts) => arts
      case None => DefaultArtworks(loadTime)
    }

    function FindUserByUsername(username: string): Option<User>
      reads this
    {
      FindUser(GetUsers(), username)
    }

    function GetArtworksByUser(userId: string): seq<Artwork>
      reads this
    {
      ArtworksByUser(GetArtworks(), userId)
    }

    function GetArtworksByUsername(username: string): seq<Artwork>
      reads this
    {
      ArtworksByUsername(GetArtworks(), username)
    }

    /** Appends `user` to the users read now and stores the result; no duplicate check is made,
        so a username that already resolves keeps resolving to the earlier user. */
    method SaveUser(user: User)
      modifies this
      ensures users == Some(old(GetUsers()) + [user])
      ensures |GetUsers()| == |old(GetUsers())| + 1
      ensures artworks == old(artworks)
      ensures forall q :: old(FindUserByUsername(q)).Some? ==> FindUserByUsername(q) == old(FindUserByUsername(q))
      ensures FindUserByUsername(user.username).Some?
    {
      ghost var before := GetUsers();
      var list := GetUsers();
      list := list + [user];
      users := Some(list);
      forall q | FindUser(before, q).Some?
        ensures FindUserByUsername(q) == FindUser(before, q)
      {
        FindUserAfterAppend(before, user, q);
      }
      FindUserAfterAppend(before, user, user.username);
    }

    /** Puts `artwork` in front of the artworks read now and stores the result, so the owner's
        profile lists it first and every other owner's list is untouched. */
    method SaveArtwork(artwork: Artwork)
      modifies this
      ensures artworks == Some([artwork] + old(GetArtworks()))
      ensures users == old(users)
      ensures GetArtworksByUser(artwork.userId) == [artwork] + old(GetArtworksByUser(artwork.userId))
      ensures forall id :: id != artwork.userId ==> GetArtworksByUser(id) == old(GetArtworksByUser(id))
    {
      ghost var before := GetArtworks();
      var list := GetArtworks();
      list := [artwork] + list;
      artworks := Some(list);
      SavedArtworkHeadsOwnerList(before, artwork);
      forall id | id != artwork.userId
        ensures GetArtworksByUser(id) == ArtworksByUser(before, id)
      {
        FilterAppend([artwork], before, OwnedBy(id));
      }
    }

    /** Replaces every artwork with the id of `updated` and stores the list, even when no id
        matched (the seeds then become stored data). */
    method UpdateArtwork(updated: Artwork)
      modifies this
      ensures artworks == Some(ReplaceById(old(GetArtworks()), updated))
      ensures users == old(users)
      ensures (forall a :: a in old(GetArtworks()) ==> a.id != updated.id) ==> GetArtworks() == old(GetArtworks())
    {
      ghost var before := GetArtworks();
      var list := ReplaceById(GetArtworks(), updated);
      artworks := Some(list);
      if forall a :: a in before ==> a.id != updated.id {
        ReplaceByIdAbsent(before, updated);
      }
    }
  }
}
