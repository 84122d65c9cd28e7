/** How the two screens meet in the media library: the album the capture screen
    writes to is the album the gallery reads from. */
module AppFlow {
  import opened MediaStore
  import CaptureScreen
  import GalleryScreen

  /** A save into a store without the app album: the gallery then lists just the new asset. */
  lemma ReadAfterCreate(albums: seq<Album>, asset: Asset)
    requires FindAlbum(albums, GalleryScreen.AlbumTitle).None?
    ensures GalleryScreen.GalleryRead(
      AddOrCreate(albums, CaptureScreen.SaveLookupTitle, CaptureScreen.CreateAlbumTitle, asset)) == Some([asset])
  {
    var after := AddOrCreate(albums, CaptureScreen.SaveLookupTitle, CaptureScreen.CreateAlbumTitle, asset);
    assert after == albums + [Album(GalleryScreen.AlbumTitle, [asset])];
    assert forall j :: 0 <= j < |albums| ==> after[j] == albums[j];
    FindAlbumAt(after, GalleryScreen.AlbumTitle, |albums|);
  }

  /** A save into a store whose first app album holds fewer than a page of assets: the
      gallery then lists that album's old assets followed by the new one. */
  lemma ReadAfterAdd(albums: seq<Album>, i: nat, asset: Asset)
    requires FindAlbum(albums, GalleryScreen.AlbumTitle) == Some(i)
    requires |albums[i].assets| < GalleryScreen.PageSize
    ensures GalleryScreen.GalleryRead(
      AddOrCreate(albums, CaptureScreen.SaveLookupTitle, CaptureScreen.CreateAlbumTitle, asset))
      == Some(albums[i].assets + [asset])
  {
    var after := AddOrCreate(albums, CaptureScreen.SaveLookupTitle, CaptureScreen.CreateAlbumTitle, asset);
    assert after == AddToAlbum(albums, i, [asset]);
    assert forall j :: 0 <= j < i ==> after[j] == albums[j];
    FindAlbumAt(after, GalleryScreen.AlbumTitle, i);
  }

  /** After a completed save, the gallery's load finds an album, and the saved asset is
      in what it lists whenever the album held fewer than a page of assets before. */
  lemma ReadAfterWrite(albums: seq<Album>, asset: Asset)
    ensures var after := AddOrCreate(albums, CaptureScreen.SaveLookupTitle, CaptureScreen.CreateAlbumTitle, asset);
      && GalleryScreen.GalleryRead(after).Some?
      && (FindAlbum(albums, GalleryScreen.AlbumTitle).None? ==> GalleryScreen.GalleryRead(after) == Some([asset]))
      && (FindAlbum(albums, GalleryScreen.AlbumTitle).Some?
          && |albums[FindAlbum(albums, GalleryScreen.AlbumTitle).value].assets| < GalleryScreen.PageSize
          ==> GalleryScreen.GalleryRead(after)
              == Some(albums[FindAlbum(albums, GalleryScreen.AlbumTitle).value].assets + [asset]))
  {
    var after := AddOrCreate(albums, CaptureScreen.SaveLookupTitle, CaptureScreen.CreateAlbumTitle, asset);
    match FindAlbum(albums, GalleryScreen.AlbumTitle)
    case Some(i) =>
      assert after[i].title == GalleryScreen.AlbumTitle;
      if |albums[i].assets| < GalleryScreen.PageSize {
        ReadAfterAdd(albums, i, asset);
      }
    case None =>
      ReadAfterCreate(albums, asset);
  }

  /** A photo taken on the capture screen and saved with every store call resolving
      shows up in a gallery mounted afterwards, when the app album (if any) held
      fewer than a page of assets; the capture screen ends with no photo and "/" pushed. */
  method SaveThenBrowse(screen: CaptureScreen.Screen, store: MediaLibrary, shot: CaptureScreen.Photo)
      returns (gallery: GalleryScreen.Gallery)
    requires store.Valid()
    requires screen.camera == CaptureScreen.Resolved(true) && screen.microphone.Resolved?
    requires screen.mediaLibrary == CaptureScreen.Resolved(true)
    requires var found := FindAlbum(store.albums, GalleryScreen.AlbumTitle);
      found.Some? ==> |store.albums[found.value].assets| < GalleryScreen.PageSize
    modifies screen, store
    ensures screen.photo == None && screen.View() == CaptureScreen.Live
    ensures screen.pushed == old(screen.pushed) + [CaptureScreen.HomeRoute]
    ensures Asset(old(store.nextId), shot.uri) in gallery.photos
  {
    screen.TakePicture(Some(shot));
    ghost var before := store.albums;
    screen.SavePhoto(store, 3);
    ReadAfterWrite(before, Asset(old(store.nextId), shot.uri));
    gallery := new GalleryScreen.Gallery();
    gallery.FetchPhotos(store, 2);
  }
}
