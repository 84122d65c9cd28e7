/** The gallery screen (`/`): a list of photos, loaded once on mount from the
    first album titled "NativeTestPictures". */
module GalleryScreen {
  import opened MediaStore

  /** The title the gallery looks the album up by. */
  const AlbumTitle: string := "NativeTestPictures"
  /** How many assets one listing asks for. */
  const PageSize: nat := 100

  /** What a fully resolved load does to the photo list: Some(list) replaces it,
      None leaves it as it was. */
  function GalleryRead(albums: seq<Album>): (r: Option<seq<Asset>>)
    ensures r.None? <==> forall j :: 0 <= j < |albums| ==> albums[j].title != AlbumTitle
    ensures r.Some? ==> |r.value| <= PageSize
    ensures r.Some? ==>
      exists i ::
        && 0 <= i < |albums| && albums[i].title == AlbumTitle
        && (forall j :: 0 <= j < i ==> albums[j].title != AlbumTitle)
        && r.value <= albums[i].assets
        && |r.value| == (if |albums[i].assets| < PageSize then |albums[i].assets| else PageSize)
  {
    match FindAlbum(albums, AlbumTitle)
    case None => None
    case Some(i) => Some(FirstAssets(albums[i].assets, PageSize))
  }

  class Gallery {
    var photos: seq<Asset>

    /** The screen as mounted: an empty list. */
    constructor ()
      ensures photos == []
    {
      photos := [];
    }

    /** The mount effect: list the albums, find the app album and, when there is one,
        list its first PageSize assets into `photos`. `completed` is how many of the
        two awaited store calls resolve before one rejects; a rejection leaves
        `photos` as it was. The store is only read. */
    method FetchPhotos(store: MediaLibrary, completed: nat)
      modifies this
      ensures photos == if completed >= 2 && GalleryRead(store.albums).Some?
                        then GalleryRead(store.albums).value
                        else old(photos)
    {
      var albums := store.GetAlbums(completed >= 1);
      if albums.None? {
        return;
      }
      var appAlbum := FindAlbum(albums.value, AlbumTitle);
      if appAlbum.Some? {
        var albumPhotos := store.GetAssets(appAlbum.value, PageSize, completed >= 2);
        if albumPhotos.None? {
          return;
        }
        photos := albumPhotos.value;
      }
    }
  }
}
