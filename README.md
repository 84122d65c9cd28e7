# forte-rn capture and gallery core, in Dafny

The app has two screens. The capture screen (`/takePicture`) asks for camera,
microphone and media-library permission. It shows the live camera, takes a
picture and previews it. The user can then discard the picture, or save it
into the device album titled `"NativeTestPictures"`. The gallery screen (`/`)
lists the first 100 assets of that album when it mounts.

The model has four modules:

- `MediaStore` (`media_store.dfy`) holds the albums and assets. It has the
  `find` both screens use to pick the app album (`FindAlbum`), the add-or-create
  step of the save path (`AddOrCreate`), and the lemmas about that step. The
  platform library is the class `MediaLibrary`. Each of its methods states the
  contract the app relies on for one platform call, with the simplest body
  that meets it.
- `CaptureScreen` (`capture_screen.dfy`) has the screen's hook state as the
  class `Screen`. The fields are the three permission flags, the optional
  photo and the routes pushed on the router. `SelectView` is the render chain.
  Each handler is a method.
- `GalleryScreen` (`gallery_screen.dfy`) has the class `Gallery`, which holds
  the `photos` list, and its mount effect `FetchPhotos`.
- `AppFlow` (`app_flow.dfy`) proves that the album the save path writes is the
  album the gallery reads.

A platform call that the source awaits can reject. The model covers this with
a parameter. The capture is an `Option<Photo>`, where None means the capture
promise rejected. Every other handler that awaits a platform call takes
`completed: nat`: how many of its awaited calls resolve before one rejects. A rejection ends the handler at that
point, and earlier steps keep their effect. A failed save therefore keeps the
photo. If the asset was already created, it stays in the library outside any
album.

The model follows the code as written, including these points where the code does
less than a user might expect:

- A failed save sets no error flag and shows nothing to the user. The photo
  stays, because `setPhoto(null)` is never reached.
- A second shutter press is not ignored. Each capture replaces the held photo.
- The three permission requests are awaited one after another. If any of them
  rejects, none of the three flags is set.
- The render chain waits only for the camera and microphone answers. The
  media-library answer only decides whether Save is offered.
- The album title is written as three separate literals, at
  app/takePicture.js:76 and :82 and at app/index.js:25. The model keeps three
  constants (`CaptureScreen.SaveLookupTitle`, `CaptureScreen.CreateAlbumTitle`,
  `GalleryScreen.AlbumTitle`). `AppFlow.ReadAfterWrite` is the proof that they
  agree.

## Model

| member | source | states |
|---|---|---|
| MediaStore.FindAlbum | app/takePicture.js:74-77 | the result is the position of the first album whose title is exactly the given one (case-sensitive); it is None exactly when no album has that title |
| MediaStore.FirstAssets | app/index.js:29-32 | a listing with `first: n` is a prefix of the album's assets, of length min(n, album size) |
| MediaStore.SaveCreatesNoDuplicateAlbum | app/takePicture.js:74-83 | after a save, the number of albums with the app title is unchanged if there was one, and exactly 1 if there was none |
| MediaStore.SaveAddsExactlyOneAsset | app/takePicture.js:79-83 | a save adds exactly one album membership, that of the new asset, and removes none |
| MediaStore.SaveTouchesOnlyTargetAlbum | app/takePicture.js:75-83 | with an album found, only the first matching album changes, by gaining the asset at its end, and no album is created; with none found, the only change is one new album holding just the asset |
| MediaStore.SecondSaveReusesAlbum | app/takePicture.js:74-83 | two saves into a store without the album: the first creates it, the second finds that same album, which then holds both assets, and exactly one album has the title |
| MediaStore.NotFoundIffNoneTitled | app/takePicture.js:75-79 | the lookup fails exactly when no album carries the title |
| MediaStore.CountTitledAddToAlbum | app/takePicture.js:80 | adding assets to an album changes no album's title count |
| MediaStore.MediaLibrary.CreateAsset | app/takePicture.js:71 | a resolved call adds one fresh asset built from the uri to the library and leaves albums alone; a rejected one changes nothing |
| MediaStore.MediaLibrary.GetAlbums | app/takePicture.js:74 | a resolved call returns the current album list |
| MediaStore.MediaLibrary.AddAssetsToAlbum | app/takePicture.js:80 | a resolved call on an existing album appends the assets to it alone; otherwise nothing changes |
| MediaStore.MediaLibrary.CreateAlbum | app/takePicture.js:82 | a resolved call appends one album with the title holding just the seed asset and returns its handle |
| MediaStore.MediaLibrary.GetAssets | app/index.js:29-32 | a resolved call on an existing album returns its first `first` assets |
| CaptureScreen.FromStatus | app/takePicture.js:34-36 | a resolved request leaves the flag true exactly when its status is "granted", false for any other status |
| CaptureScreen.SelectView | app/takePicture.js:40-55 | Requesting exactly while camera or microphone is unresolved; CameraDenied exactly when the camera answer is not granted and both are answered, whatever the microphone says; Preview exactly when granted and a photo is held (lines 91, 115), with Save offered exactly when media-library permission is granted (line 98); Live otherwise |
| CaptureScreen.Screen.constructor | app/takePicture.js:20-24 | the screen mounts with all flags unresolved, no photo, and shows Requesting |
| CaptureScreen.Screen.ResolvePermissions | app/takePicture.js:26-38 | when all three requests resolve, each flag is set from its own status and the screen leaves Requesting, to CameraDenied exactly when the camera status is not "granted"; a rejection leaves every flag as it was (unresolved on mount) |
| CaptureScreen.Screen.TakePicture | app/takePicture.js:57-66 | a resolved capture replaces the photo and, with camera granted, the screen shows the preview; a rejected one changes nothing; permissions and navigation are unchanged |
| CaptureScreen.Screen.Discard | app/takePicture.js:104-106 | the photo becomes null and, with camera granted, the screen is live again; the media library is outside its frame |
| CaptureScreen.Screen.SavePhoto | app/takePicture.js:68-89 | without media-library permission, photo, store and navigation are unchanged; otherwise the library gains one fresh asset from `photo.uri` once the first call resolves, the albums become the add-or-create of that asset under "NativeTestPictures", and only when all three calls resolve is the photo cleared and "/" pushed; on any rejection the photo is kept |
| GalleryScreen.GalleryRead | app/index.js:24-33 | a load replaces the list exactly when some album is titled "NativeTestPictures"; the list is then a prefix of the FIRST such album's assets, of length min(100, album size); with no such album it leaves the list alone |
| GalleryScreen.Gallery.constructor | app/index.js:18 | the photo list starts empty |
| GalleryScreen.Gallery.FetchPhotos | app/index.js:20-38 | when both calls resolve, the list becomes the read of the app album if there is one, and otherwise stays as it was; a rejection leaves it as it was; the store is read only |
| AppFlow.ReadAfterCreate | app/index.js:24-33 | when the store had no app album, the gallery's load after a completed save lists exactly the new asset |
| AppFlow.ReadAfterAdd | app/index.js:24-33 | when the first app album held fewer than 100 assets, the gallery's load after a completed save lists its old assets followed by the new one |
| MediaStore.FindAlbumAt | app/takePicture.js:75-77 | the lookup returns position k whenever album k has the title and no earlier album does |
| AppFlow.ReadAfterWrite | app/index.js:24-33 | after a completed save, the gallery's lookup finds an album; the list is exactly the new asset when the album did not exist, and the album's old assets plus the new one when it held fewer than 100 |
| AppFlow.SaveThenBrowse | app/takePicture.js:64-87 | take a picture, save it with every call resolving, then mount the gallery: when the app album (if any) held fewer than 100 assets before the save, the saved asset is in the gallery's list, the capture screen is live with no photo, and "/" was pushed once |

## Left out

- Rendering, styles and components are not modelled: the JSX, the `Link` buttons and the base64 data URI built for the preview image. The modes of `SelectView` stand for what is rendered.
- Camera hardware and the capture options are not modelled. A capture is an opaque `Photo` with a `uri`, or a rejection.
- The platform media library is not verified. `MediaLibrary`'s methods state assumed contracts: a rejected call changes nothing; `createAlbumAsync` appends the new album at the end of the album list; `getAssetsAsync` returns the leading assets in album order; asset ids are issued in increasing order.
- MediaStore.MediaLibrary.AddAssetsToAlbum and MediaStore.MediaLibrary.GetAssets: the album handle is the album's position in the list returned by `getAlbumsAsync`, not the album object the source passes (app/takePicture.js:80, app/index.js:30). Each handler is one atomic step, so the position cannot go stale between the lookup and the call that uses it.
- Async scheduling and the React hook lifecycle are not modelled. Each handler is one atomic step, so interleavings are outside the model, for example a Discard pressed while a save is still awaiting the store.
- Navigation is recorded only as the list of pushed routes. The router itself and the gallery screen that "/" mounts are not modelled.
- The capture screen's `cameraRef.current` being unset when the shutter is pressed is not modelled.
- Unhandled promise rejections in the source produce only a runtime warning, which is not modelled. A rejection's only effect in the model is that the handler stops.
