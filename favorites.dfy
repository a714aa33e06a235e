/** The `useFavorites` hook: a list of movies kept in the browser's local
    storage under one key, most recently added first, with an in-memory copy
    the page renders from. */
module Favorites {
  import opened Wrappers
  import opened Keyed
  import opened MovieSlice

  const FavoritesKey := "moviehub:favorites"

  /** What `JSON.parse` makes of a stored text, as far as `readFavorites`
      tells the outcomes apart. */
  datatype Parsed = ParseError | ParsedArray(items: seq<Movie>) | ParsedOther

  function MovieId(m: Movie): int { m.id }

  /** `JSON.stringify(xs)` is a non-empty text that `JSON.parse` reads back
      as the array `xs`. This is asked of the lists a statement writes, not of
      every list. */
  predicate RoundTrips(parse: string -> Parsed, serialize: seq<Movie> -> string, xs: seq<Movie>) {
    serialize(xs) != "" && parse(serialize(xs)) == ParsedArray(xs)
  }

  /** `readFavorites` on what `getItem` returned: an empty list for a missing
      or empty value, for a value that does not parse and for one that parses
      to something other than an array; the parsed array otherwise. */
  function ReadFavorites(stored: Option<string>, parse: string -> Parsed): (r: seq<Movie>)
    ensures r != [] ==> stored.Some? && stored.value != "" && parse(stored.value) == ParsedArray(r)
    ensures stored.Some? && stored.value != "" && parse(stored.value).ParsedArray? ==>
      r == parse(stored.value).items
  {
    match stored
    case None => []
    case Some(text) =>
      if text == "" then []
      else match parse(text)
        case ParsedArray(items) => items
        case _ => []
  }

  /** What `readFavorites` returns after `writeFavorites(xs)`: the list itself. */
  lemma ReadAfterWrite(xs: seq<Movie>, parse: string -> Parsed, serialize: seq<Movie> -> string)
    requires RoundTrips(parse, serialize, xs)
    ensures ReadFavorites(Some(serialize(xs)), parse) == xs
  {
  }

  /** The `next` list of `toggleFavorite`: without the movie's id when the id
      is present, the movie put in front otherwise. */
  function Toggled(current: seq<Movie>, movie: Movie): (r: seq<Movie>)
    ensures |r| <= |current| + 1
    ensures forall i :: 0 <= i < |r| ==> r[i] == movie || r[i] in current
  {
    if HasKey(current, movie.id, MovieId) then WithoutKey(current, movie.id, MovieId)
    else [movie] + current
  }

  /** Toggling an absent movie puts it in front of the unchanged list. */
  lemma ToggleAbsent(current: seq<Movie>, movie: Movie)
    requires !HasKey(current, movie.id, MovieId)
    ensures Toggled(current, movie) == [movie] + current
    ensures Toggled(current, movie)[1..] == current
  {
  }

  /** Toggling a present movie drops every entry with its id and keeps every
      other entry, as often as it occurred and in its original order. */
  lemma TogglePresent(current: seq<Movie>, movie: Movie, x: Movie)
    requires HasKey(current, movie.id, MovieId)
    ensures !HasKey(Toggled(current, movie), movie.id, MovieId)
    ensures x.id != movie.id ==> multiset(Toggled(current, movie))[x] == multiset(current)[x]
    ensures forall a, b :: current == a + b ==>
      Toggled(current, movie) == WithoutKey(a, movie.id, MovieId) + WithoutKey(b, movie.id, MovieId)
  {
    WithoutKeyCount(current, movie.id, MovieId, x);
    forall a, b | current == a + b
      ensures Toggled(current, movie) == WithoutKey(a, movie.id, MovieId) + WithoutKey(b, movie.id, MovieId)
    {
      WithoutKeyAppend(a, b, movie.id, MovieId);
    }
  }

  /** A toggle flips whether the movie's id is in the list, and leaves every
      other id as it was. */
  lemma ToggleFlips(current: seq<Movie>, movie: Movie, other: int)
    ensures HasKey(Toggled(current, movie), movie.id, MovieId) == !HasKey(current, movie.id, MovieId)
    ensures other != movie.id ==>
      HasKey(Toggled(current, movie), other, MovieId) == HasKey(current, other, MovieId)
  {
    var next := Toggled(current, movie);
    if !HasKey(current, movie.id, MovieId) {
      assert MovieId(next[0]) == movie.id;
      if other != movie.id && HasKey(current, other, MovieId) {
        var i :| 0 <= i < |current| && current[i].id == other;
        assert next[i + 1] == current[i];
      }
    } else if other != movie.id {
      if HasKey(current, other, MovieId) {
        var i :| 0 <= i < |current| && current[i].id == other;
        WithoutKeyMembers(current, movie.id, MovieId, current[i]);
        var j :| 0 <= j < |next| && next[j] == current[i];
      }
    }
  }

  /** Toggling the same movie twice, starting from a list without it, gives
      back the list. */
  lemma ToggleTwice(current: seq<Movie>, movie: Movie)
    requires !HasKey(current, movie.id, MovieId)
    ensures Toggled(Toggled(current, movie), movie) == current
  {
    var once := [movie] + current;
    assert MovieId(once[0]) == movie.id;
    assert WithoutKey(once, movie.id, MovieId) == WithoutKey(current, movie.id, MovieId) by {
      assert once[1..] == current;
    }
    WithoutAbsentKey(current, movie.id, MovieId);
  }

  /** A list without duplicate ids stays without duplicates. */
  lemma ToggleKeepsDistinct(current: seq<Movie>, movie: Movie)
    requires DistinctKeys(current, MovieId)
    ensures DistinctKeys(Toggled(current, movie), MovieId)
  {
    if HasKey(current, movie.id, MovieId) {
      WithoutKeyDistinct(current, movie.id, MovieId);
    } else {
      var next := [movie] + current;
      forall i, j | 0 <= i < j < |next| ensures MovieId(next[i]) != MovieId(next[j]) {
        assert next[j] == current[j - 1];
        if i > 0 { assert next[i] == current[i - 1]; }
      }
    }
  }

  /** A codec that round-trips the empty list and a one-movie list exists, so
      the assumption made by `SharedStorageScenario` can be met. */
  lemma SampleCodec(movie: Movie)
    ensures var serialize := (xs: seq<Movie>) => if xs == [] then "[]" else "[movie]";
      var parse := (text: string) =>
        if text == "[]" then ParsedArray([]) else if text == "[movie]" then ParsedArray([movie]) else ParseError;
      RoundTrips(parse, serialize, []) && RoundTrips(parse, serialize, [movie])
  {
  }

  /** `window.localStorage`: one text value per key, shared by every hook on
      the page. */
  class Storage {
    var entries: map<string, string>

    constructor (initial: map<string, string>)
      ensures entries == initial
    {
      entries := initial;
    }

    function Lookup(key: string): Option<string>
      reads this
    {
      if key in entries then Some(entries[key]) else None
    }

    /** `getItem`: the stored text, or null for a key never set. */
    method GetItem(key: string) returns (value: Option<string>)
      ensures value.Some? <==> key in entries
      ensures value.Some? ==> value.value == entries[key]
    {
      value := if key in entries then Some(entries[key]) else None;
    }

    /** `setItem`: a later `getItem` of the key returns the value, and every
        other key reads as before. */
    method SetItem(key: string, value: string)
      modifies this
      ensures entries == old(entries)[key := value]
      ensures Lookup(key) == Some(value)
      ensures forall k :: k != key ==> Lookup(k) == old(Lookup(k))
    {
      entries := entries[key := value];
    }
  }

  /** The page's `window`: its local storage, the JSON codec, and the hooks
      whose `sync` listens for the `moviehub:favorites-updated` event. */
  class Window {
    const storage: Storage
    const parse: string -> Parsed
    const serialize: seq<Movie> -> string
    var listeners: set<FavoritesHook>

    /** Every listener belongs to this window. */
    ghost predicate Valid()
      reads this
    {
      forall h :: h in listeners ==> h.window == this
    }

    constructor (storage: Storage, parse: string -> Parsed, serialize: seq<Movie> -> string)
      ensures Valid() && listeners == {}
      ensures this.storage == storage && this.parse == parse && this.serialize == serialize
    {
      this.storage := storage;
      this.parse := parse;
      this.serialize := serialize;
      listeners := {};
    }

    /** The list `readFavorites` would return now. */
    function Stored(): seq<Movie>
      reads storage
    {
      ReadFavorites(storage.Lookup(FavoritesKey), parse)
    }

    /** `addEventListener(FAVORITES_UPDATED_EVENT, sync)`; adding a listener
        that is already there changes nothing. */
    method AddListener(h: FavoritesHook)
      requires Valid() && h.window == this
      modifies this
      ensures Valid() && listeners == old(listeners) + {h}
    {
      listeners := listeners + {h};
    }

    /** `removeEventListener(FAVORITES_UPDATED_EVENT, sync)`. */
    method RemoveListener(h: FavoritesHook)
      requires Valid()
      modifies this
      ensures Valid() && listeners == old(listeners) - {h}
    {
      listeners := listeners - {h};
    }

    /** `dispatchEvent(new Event(FAVORITES_UPDATED_EVENT))`: every listening
        hook runs `sync` before the call returns. */
    method DispatchUpdated()
      requires Valid()
      modifies listeners
      ensures forall h :: h in listeners ==> h.favorites == Stored()
    {
      var pending := listeners;
      while pending != {}
        invariant pending <= listeners
        invariant forall h :: h in listeners - pending ==> h.favorites == Stored()
        decreases pending
      {
        var h :| h in pending;
        h.Sync();
        pending := pending - {h};
      }
    }

    /** `writeFavorites`: store the list as JSON under the favorites key, then
        announce the update, so every listening hook reloads. */
    method WriteFavorites(next: seq<Movie>)
      requires Valid()
      modifies storage, listeners
      ensures storage.entries == old(storage.entries)[FavoritesKey := serialize(next)]
      ensures forall h :: h in listeners ==> h.favorites == Stored()
      ensures RoundTrips(parse, serialize, next) ==> Stored() == next
    {
      storage.SetItem(FavoritesKey, serialize(next));
      DispatchUpdated();
      if RoundTrips(parse, serialize, next) {
        ReadAfterWrite(next, parse, serialize);
      }
    }
  }

  /** One mounted `useFavorites`: its `favorites` state and the window it
      reads storage from. */
  class FavoritesHook {
    const window: Window
    var favorites: seq<Movie>

    /** `useState([])`. */
    constructor (window: Window)
      ensures this.window == window && favorites == []
    {
      this.window := window;
      favorites := [];
    }

    /** The list `readFavorites` would return now. */
    function Stored(): seq<Movie>
      reads window.storage
    {
      window.Stored()
    }

    /** `favoriteIds`. */
    function FavoriteIds(): (ids: set<int>)
      reads this
      ensures forall id :: id in ids <==> exists i :: 0 <= i < |favorites| && favorites[i].id == id
    {
      KeySet(favorites, MovieId)
    }

    /** `isFavorite`: membership of the id in `favoriteIds`. */
    function IsFavorite(movieId: int): (b: bool)
      reads this
      ensures b <==> exists i :: 0 <= i < |favorites| && favorites[i].id == movieId
    {
      movieId in FavoriteIds()
    }

    /** `sync`: reload the in-memory copy from storage. */
    method Sync()
      modifies this
      ensures favorites == Stored()
    {
      var stored := window.storage.GetItem(FavoritesKey);
      favorites := ReadFavorites(stored, window.parse);
    }

    /** The mount effect: sync once, then listen for updates. */
    method Mount()
      requires window.Valid()
      modifies this, window
      ensures favorites == Stored()
      ensures window.Valid() && window.listeners == old(window.listeners) + {this}
    {
      Sync();
      window.AddListener(this);
    }

    /** The effect's cleanup: stop listening. */
    method Unmount()
      requires window.Valid()
      modifies window
      ensures window.Valid() && window.listeners == old(window.listeners) - {this}
    {
      window.RemoveListener(this);
    }

    /** `toggleFavorite`: decide on the list read from storage just now (not
      on the in-memory copy), write the result back, which resyncs every
      listening hook, and adopt it. */
    method ToggleFavorite(movie: Movie)
      requires window.Valid()
      modifies this, window.storage, window.listeners
      ensures window.storage.entries ==
        old(window.storage.entries)[FavoritesKey := window.serialize(Toggled(old(Stored()), movie))]
      ensures favorites == Toggled(old(Stored()), movie)
      ensures IsFavorite(movie.id) == !HasKey(old(Stored()), movie.id, MovieId)
      ensures forall h :: h in window.listeners && h != this ==> h.favorites == Stored()
      ensures RoundTrips(window.parse, window.serialize, favorites) ==> Stored() == favorites
    {
      var stored := window.storage.GetItem(FavoritesKey);
      var current := ReadFavorites(stored, window.parse);
      var present := HasKey(current, movie.id, MovieId);
      var next := if present then WithoutKey(current, movie.id, MovieId) else [movie] + current;
      window.WriteFavorites(next);
      favorites := next;
      ToggleFlips(current, movie, movie.id);
    }
  }

  /** Two hooks mount on an empty storage and the first adds a movie: the
      update event makes the second hook show it too. */
  method MountTwoAndAdd(parse: string -> Parsed, serialize: seq<Movie> -> string, movie: Movie)
    returns (window: Window, first: FavoritesHook, second: FavoritesHook)
    requires RoundTrips(parse, serialize, [movie])
    ensures fresh(window) && fresh(window.storage) && fresh(first) && fresh(second) && first != second
    ensures window.Valid() && window.listeners == {first, second}
    ensures first.window == window && second.window == window
    ensures window.parse == parse && window.serialize == serialize
    ensures window.Stored() == [movie] && first.favorites == [movie] && second.favorites == [movie]
  {
    var storage := new Storage(map[]);
    window := new Window(storage, parse, serialize);
    first := new FavoritesHook(window);
    second := new FavoritesHook(window);
    first.Mount();
    second.Mount();
    assert window.Stored() == [];
    assert Toggled([], movie) == [movie];
    first.ToggleFavorite(movie);
  }

  /** Two hooks mounted on one page. The first adds a movie; the update event
      makes the second show it too. The second then toggles it, which removes
      it from storage, and the event empties the first hook's copy as well. */
  method SharedStorageScenario(parse: string -> Parsed, serialize: seq<Movie> -> string, movie: Movie)
    returns (secondSawIt: bool, storedAfter: seq<Movie>, firstShows: bool, secondShows: bool)
    requires RoundTrips(parse, serialize, []) && RoundTrips(parse, serialize, [movie])
    ensures secondSawIt && storedAfter == [] && !firstShows && !secondShows
  {
    var window, first, second := MountTwoAndAdd(parse, serialize, movie);
    assert MovieId(second.favorites[0]) == movie.id;
    secondSawIt := second.IsFavorite(movie.id);
    assert Toggled([movie], movie) == [] by {
      assert HasKey([movie], movie.id, MovieId);
      assert WithoutKey([movie], movie.id, MovieId) == [];
    }
    second.ToggleFavorite(movie);
    storedAfter := window.Stored();
    firstShows := first.IsFavorite(movie.id);
    secondShows := second.IsFavorite(movie.id);
  }
}
