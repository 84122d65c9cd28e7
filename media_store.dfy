/** The platform media library as the app sees it: albums of assets, the
    `find` both screens use to pick the app's album, the add-or-create step
    of the save path, and the store object whose calls the screens await.
    The store's internals belong to the platform; its methods below state
    the contract the app relies on, with the simplest body that meets it. */
module MediaStore {

  datatype Option<T> = None | Some(value: T)

  /** A media asset: the stable id the platform gives it and the locator it was created from. */
  datatype Asset = Asset(id: nat, uri: string)

  /** An album: its human-readable title and its assets in platform order. */
  datatype Album = Album(title: string, assets: seq<Asset>)

  /** `albums.find((album) => album.title === title)`: the position of the first
      album whose title is exactly `title` (case-sensitive), or None. The position
      is the handle later passed back to the store. */
  function FindAlbum(albums: seq<Album>, title: string): (r: Option<nat>)
    ensures r.Some? ==> r.value < |albums| && albums[r.value].title == title
    ensures r.Some? ==> forall j :: 0 <= j < r.value ==> albums[j].title != title
    ensures r.None? <==> forall j :: 0 <= j < |albums| ==> albums[j].title != title
  {
    if |albums| == 0 then None
    else if albums[0].title == title then Some(0)
    else match FindAlbum(albums[1..], title)
      case None => None
      case Some(i) => Some(i + 1)
  }

  /** The lookup's result is pinned down by the title layout: the first album with the title. */
  lemma FindAlbumAt(albums: seq<Album>, title: string, k: nat)
    requires k < |albums| && albums[k].title == title
    requires forall j :: 0 <= j < k ==> albums[j].title != title
    ensures FindAlbum(albums, title) == Some(k)
  {
  }

  /** The assets a paged listing with `first` returns: the leading ones, at most `first`. */
  function FirstAssets(assets: seq<Asset>, first: nat): (r: seq<Asset>)
    ensures r <= assets
    ensures |r| == if |assets| < first then |assets| else first
  {
    if |assets| <= first then assets else assets[..first]
  }

  /** The albums after `added` is appended to the album at position `i`. */
  function AddToAlbum(albums: seq<Album>, i: nat, added: seq<Asset>): seq<Album>
    requires i < |albums|
  {
    albums[i := albums[i].(assets := albums[i].assets + added)]
  }

  /** The albums after a new album titled `title` is created, seeded with `seed`. */
  function WithNewAlbum(albums: seq<Album>, title: string, seed: Asset): seq<Album>
  {
    albums + [Album(title, [seed])]
  }

  /** The album step of the save path: look the album up by `lookupTitle`; add the
      asset to the first match, or else create an album titled `createTitle`
      holding just that asset. */
  function AddOrCreate(albums: seq<Album>, lookupTitle: string, createTitle: string, asset: Asset): seq<Album>
  {
    match FindAlbum(albums, lookupTitle)
    case Some(i) => AddToAlbum(albums, i, [asset])
    case None => WithNewAlbum(albums, createTitle, asset)
  }

  /** How many albums carry exactly the title `title`. */
  function CountTitled(albums: seq<Album>, title: string): nat
  {
    if |albums| == 0 then 0
    else (if albums[0].title == title then 1 else 0) + CountTitled(albums[1..], title)
  }

  /** Every album membership in the store, as a multiset of assets. */
  function AllAssets(albums: seq<Album>): multiset<Asset>
  {
    if |albums| == 0 then multiset{} else multiset(albums[0].assets) + AllAssets(albums[1..])
  }

  lemma {:induction false} NotFoundIffNoneTitled(albums: seq<Album>, title: string)
    ensures FindAlbum(albums, title).None? <==> CountTitled(albums, title) == 0
  {
    if |albums| > 0 {
      NotFoundIffNoneTitled(albums[1..], title);
    }
  }

  lemma {:induction false} CountTitledAppend(albums: seq<Album>, x: Album, title: string)
    ensures CountTitled(albums + [x], title)
         == CountTitled(albums, title) + (if x.title == title then 1 else 0)
  {
    if |albums| > 0 {
      assert (albums + [x])[1..] == albums[1..] + [x];
      CountTitledAppend(albums[1..], x, title);
    }
  }

  /** Adding assets to an album keeps its title, so no title gains or loses an album. */
  lemma {:induction false} CountTitledAddToAlbum(albums: seq<Album>, i: nat, added: seq<Asset>, title: string)
    requires i < |albums|
    ensures CountTitled(AddToAlbum(albums, i, added), title) == CountTitled(albums, title)
  {
    if i == 0 {
      assert AddToAlbum(albums, i, added)[1..] == albums[1..];
    } else {
      assert AddToAlbum(albums, i, added)[1..] == AddToAlbum(albums[1..], i - 1, added);
      CountTitledAddToAlbum(albums[1..], i - 1, added, title);
    }
  }

  lemma {:induction false} AllAssetsAppend(albums: seq<Album>, x: Album)
    ensures AllAssets(albums + [x]) == AllAssets(albums) + multiset(x.assets)
  {
    if |albums| > 0 {
      assert (albums + [x])[1..] == albums[1..] + [x];
      AllAssetsAppend(albums[1..], x);
    }
  }

  lemma {:induction false} AllAssetsAddToAlbum(albums: seq<Album>, i: nat, added: seq<Asset>)
    requires i < |albums|
    ensures AllAssets(AddToAlbum(albums, i, added)) == AllAssets(albums) + multiset(added)
  {
    if i == 0 {
      assert AddToAlbum(albums, i, added)[1..] == albums[1..];
    } else {
      assert AddToAlbum(albums, i, added)[1..] == AddToAlbum(albums[1..], i - 1, added);
      AllAssetsAddToAlbum(albums[1..], i - 1, added);
    }
  }

  /** A save never creates a second album with the app's title: when one exists the
      count stays as it was, and when none exists exactly one is created. */
  lemma SaveCreatesNoDuplicateAlbum(albums: seq<Album>, title: string, asset: Asset)
    ensures CountTitled(AddOrCreate(albums, title, title, asset), title)
         == if CountTitled(albums, title) == 0 then 1 else CountTitled(albums, title)
  {
    NotFoundIffNoneTitled(albums, title);
    match FindAlbum(albums, title)
    case Some(i) => CountTitledAddToAlbum(albums, i, [asset], title);
    case None => CountTitledAppend(albums, Album(title, [asset]), title);
  }

  /** A save places exactly one asset into exactly one album membership. */
  lemma SaveAddsExactlyOneAsset(albums: seq<Album>, lookupTitle: string, createTitle: string, asset: Asset)
    ensures AllAssets(AddOrCreate(albums, lookupTitle, createTitle, asset)) == AllAssets(albums) + multiset{asset}
  {
    match FindAlbum(albums, lookupTitle)
    case Some(i) => AllAssetsAddToAlbum(albums, i, [asset]);
    case None => AllAssetsAppend(albums, Album(createTitle, [asset]));
  }

  /** A save changes no album but the first one titled `lookupTitle`, which gains the
      asset at its end; with no such album the list only grows by the new album. */
  lemma SaveTouchesOnlyTargetAlbum(albums: seq<Album>, lookupTitle: string, createTitle: string, asset: Asset)
    ensures var after := AddOrCreate(albums, lookupTitle, createTitle, asset);
      match FindAlbum(albums, lookupTitle)
      case Some(i) =>
        && |after| == |albums|
        && after[i].title == albums[i].title == lookupTitle
        && after[i].assets == albums[i].assets + [asset]
        && forall j :: 0 <= j < |albums| && j != i ==> after[j] == albums[j]
      case None =>
        && |after| == |albums| + 1
        && after[..|albums|] == albums
        && after[|albums|] == Album(createTitle, [asset])
  {
  }

  /** Saving twice into a store without the album: the first save creates it at the
      end, the second finds that same album and appends to it. */
  lemma SecondSaveReusesAlbum(albums: seq<Album>, title: string, first: Asset, second: Asset)
    requires FindAlbum(albums, title).None?
    ensures var once := AddOrCreate(albums, title, title, first);
      var twice := AddOrCreate(once, title, title, second);
      && FindAlbum(once, title) == Some(|albums|)
      && FindAlbum(twice, title) == Some(|albums|)
      && |twice| == |albums| + 1
      && twice[|albums|] == Album(title, [first, second])
      && CountTitled(twice, title) == 1
  {
    var once := AddOrCreate(albums, title, title, first);
    assert once[|albums|].title == title;
    var twice := AddOrCreate(once, title, title, second);
    assert FindAlbum(once, title) == Some(|albums|);
    assert twice[|albums|].title == title;
    assert forall j :: 0 <= j < |albums| ==> twice[j] == albums[j];
    SaveCreatesNoDuplicateAlbum(albums, title, first);
    SaveCreatesNoDuplicateAlbum(once, title, second);
    NotFoundIffNoneTitled(albums, title);
  }

  /** The platform media library: the assets it holds and its albums.
      Every awaited call takes `resolves`: false stands for a rejected promise,
      after which the library is as it was before the call. */
  class MediaLibrary {
    var library: seq<Asset>
    var albums: seq<Album>
    var nextId: nat

    /** Ids are issued in increasing order and albums hold only library assets. */
    ghost predicate Valid()
      reads this
    {
      && (forall k :: 0 <= k < |library| ==> library[k].id < nextId)
      && (forall i, k :: 0 <= i < |albums| && 0 <= k < |albums[i].assets| ==> albums[i].assets[k] in library)
    }

    constructor ()
      ensures Valid()
      ensures library == [] && albums == []
    {
      library, albums, nextId := [], [], 0;
    }

    /** `createAssetAsync(uri)`: stores a new asset built from `uri`, in no album yet. */
    method CreateAsset(uri: string, resolves: bool) returns (r: Option<Asset>)
      requires Valid()
      modifies this
      ensures Valid()
      ensures albums == old(albums)
      ensures resolves ==> r == Some(Asset(old(nextId), uri)) && r.value !in old(library)
      ensures library == if resolves then old(library) + [r.value] else old(library)
      ensures !resolves ==> r.None? && nextId == old(nextId)
    {
      if !resolves {
        return None;
      }
      var asset := Asset(nextId, uri);
      library := library + [asset];
      nextId := nextId + 1;
      r := Some(asset);
    }

    /** `getAlbumsAsync()`: a snapshot of the album list. */
    method GetAlbums(resolves: bool) returns (r: Option<seq<Album>>)
      ensures resolves <==> r.Some?
      ensures r.Some? ==> r.value == albums
    {
      if resolves {
        r := Some(albums);
      } else {
        r := None;
      }
    }

    /** `addAssetsToAlbumAsync(added, album)`: appends `added` to the album at that
        position; a handle that names no album rejects. */
    method AddAssetsToAlbum(added: seq<Asset>, album: nat, resolves: bool) returns (ok: bool)
      requires Valid()
      requires forall k :: 0 <= k < |added| ==> added[k] in library
      modifies this
      ensures Valid()
      ensures library == old(library) && nextId == old(nextId)
      ensures ok <==> resolves && album < |old(albums)|
      ensures albums == if ok then AddToAlbum(old(albums), album, added) else old(albums)
    {
      ok := resolves && album < |albums|;
      if ok {
        albums := AddToAlbum(albums, album, added);
      }
    }

    /** `createAlbumAsync(title, seed)`: a new album holding `seed`; returns its handle. */
    method CreateAlbum(title: string, seed: Asset, resolves: bool) returns (r: Option<nat>)
      requires Valid()
      requires seed in library
      modifies this
      ensures Valid()
      ensures library == old(library) && nextId == old(nextId)
      ensures albums == if resolves then WithNewAlbum(old(albums), title, seed) else old(albums)
      ensures resolves <==> r.Some?
      ensures r.Some? ==> r.value == |old(albums)| && albums[r.value] == Album(title, [seed])
    {
      if !resolves {
        return None;
      }
      albums := WithNewAlbum(albums, title, seed);
      r := Some(|albums| - 1);
    }

    /** `getAssetsAsync({album, first})`: the album's leading `first` assets; a handle
        that names no album rejects. */
    method GetAssets(album: nat, first: nat, resolves: bool) returns (r: Option<seq<Asset>>)
      ensures r.Some? <==> resolves && album < |albums|
      ensures r.Some? ==> r.value == FirstAssets(albums[album].assets, first)
    {
      if resolves && album < |albums| {
        r := Some(FirstAssets(albums[album].assets, first));
      } else {
        r := None;
      }
    }
  }
}
