/** The capture screen (`/takePicture`): three permission flags and the captured
    photo are its hook state; what it shows is a function of that state; its
    handlers update the state and, on save, the platform media library. */
module CaptureScreen {
  import opened MediaStore

  /** The title the save path looks the album up by. */
  const SaveLookupTitle: string := "NativeTestPictures"
  /** The title the save path creates the album with. */
  const CreateAlbumTitle: string := "NativeTestPictures"
  /** The permission status string that counts as granted. */
  const GrantedStatus: string := "granted"
  /** The route a completed save navigates to (the gallery). */
  const HomeRoute: string := "/"

  /** A permission hook value: `undefined` until the request resolves, then a boolean. */
  datatype Permission = Unresolved | Resolved(granted: bool)

  /** A captured picture: the locator the asset is created from and the encoded payload shown in preview. */
  datatype Photo = Photo(uri: string, base64: string)

  /** What the screen renders. */
  datatype Mode =
    | Requesting              // "Requestion permissions..."
    | CameraDenied            // "Permission for camera not granted."
    | Preview(saveOffered: bool)  // the captured photo, with Discard and, when offered, Save
    | Live                    // the camera with "Take picture" and "Home"

  /** The flag a resolved request leaves: granted exactly when the status is "granted". */
  function FromStatus(status: string): (p: Permission)
    ensures p.Resolved?
    ensures p.granted <==> status == GrantedStatus
  {
    Resolved(status == GrantedStatus)
  }

  /** The render chain of the screen, from its four state values. */
  function SelectView(camera: Permission, microphone: Permission, mediaLibrary: Permission, photo: Option<Photo>): (m: Mode)
    ensures m == Requesting <==> camera.Unresolved? || microphone.Unresolved?
    ensures m == CameraDenied <==> camera == Resolved(false) && microphone.Resolved?
    ensures m.Preview? <==> camera == Resolved(true) && microphone.Resolved? && photo.Some?
    ensures m.Preview? ==> (m.saveOffered <==> mediaLibrary == Resolved(true))
    ensures m == Live <==> camera == Resolved(true) && microphone.Resolved? && photo.None?
  {
    if camera.Unresolved? || microphone.Unresolved? then Requesting
    else if !camera.granted then CameraDenied
    else if photo.Some? then Preview(mediaLibrary == Resolved(true))
    else Live
  }

  class Screen {
    var camera: Permission
    var microphone: Permission
    var mediaLibrary: Permission
    var photo: Option<Photo>
    /** The routes pushed on the router, oldest first. */
    var pushed: seq<string>

    /** The screen as mounted: nothing answered, no photo. */
    constructor ()
      ensures camera == Unresolved && microphone == Unresolved && mediaLibrary == Unresolved
      ensures photo == None && pushed == []
      ensures View() == Requesting
    {
      camera, microphone, mediaLibrary := Unresolved, Unresolved, Unresolved;
      photo, pushed := None, [];
    }

    function View(): Mode
      reads this
    {
      SelectView(camera, microphone, mediaLibrary, photo)
    }

    /** The mount effect: camera, microphone and media-library requests awaited in that
        order; `completed` of them resolve before one rejects. Only when all three
        resolve are the three flags set, each from its own status. */
    method ResolvePermissions(cameraStatus: string, microphoneStatus: string, mediaLibraryStatus: string, completed: nat)
      modifies this
      ensures photo == old(photo) && pushed == old(pushed)
      ensures completed >= 3 ==>
        && camera == FromStatus(cameraStatus)
        && microphone == FromStatus(microphoneStatus)
        && mediaLibrary == FromStatus(mediaLibraryStatus)
      ensures completed < 3 ==>
        camera == old(camera) && microphone == old(microphone) && mediaLibrary == old(mediaLibrary)
      ensures completed >= 3 ==> View() != Requesting
      ensures completed >= 3 ==> (View() == CameraDenied <==> cameraStatus != GrantedStatus)
    {
      if completed < 3 {
        return;
      }
      camera := FromStatus(cameraStatus);
      microphone := FromStatus(microphoneStatus);
      mediaLibrary := FromStatus(mediaLibraryStatus);
    }

    /** The shutter handler: `capture` is what the camera's capture promise resolves
        to, None when it rejects. A capture replaces whatever photo was held. */
    method TakePicture(capture: Option<Photo>)
      modifies this
      ensures camera == old(camera) && microphone == old(microphone) && mediaLibrary == old(mediaLibrary)
      ensures pushed == old(pushed)
      ensures photo == if capture.Some? then capture else old(photo)
      ensures capture.Some? && camera == Resolved(true) && microphone.Resolved? ==> View() == Preview(mediaLibrary == Resolved(true))
    {
      if capture.Some? {
        photo := capture;
      }
    }

    /** The Discard handler: drops the photo; the media library is not in its frame. */
    method Discard()
      modifies this
      ensures camera == old(camera) && microphone == old(microphone) && mediaLibrary == old(mediaLibrary)
      ensures pushed == old(pushed)
      ensures photo == None
      ensures camera == Resolved(true) && microphone.Resolved? ==> View() == Live
    {
      photo := None;
    }

    /** The Save handler. Without media-library permission it does nothing. Otherwise it
        creates an asset from the photo's uri, lists the albums, adds the asset to the
        first album titled "NativeTestPictures" or creates that album with it, and only
        then clears the photo and pushes "/". `completed` is how many of those three
        awaited store calls resolve before one rejects; a rejection ends the handler
        with the photo kept. With no photo held, `photo.uri` throws before any call. */
    method SavePhoto(store: MediaLibrary, completed: nat)
      requires store.Valid()
      modifies this, store
      ensures store.Valid()
      ensures camera == old(camera) && microphone == old(microphone) && mediaLibrary == old(mediaLibrary)
      ensures old(mediaLibrary) != Resolved(true) || old(photo).None? ==>
        && photo == old(photo) && pushed == old(pushed)
        && store.library == old(store.library) && store.albums == old(store.albums)
      ensures old(mediaLibrary) == Resolved(true) && old(photo).Some? ==>
        var saved := Asset(old(store.nextId), old(photo).value.uri);
        && saved !in old(store.library)
        && store.library == old(store.library) + (if completed >= 1 then [saved] else [])
        && store.albums == (if completed >= 3
                            then AddOrCreate(old(store.albums), SaveLookupTitle, CreateAlbumTitle, saved)
                            else old(store.albums))
        && photo == (if completed >= 3 then None else old(photo))
        && pushed == old(pushed) + (if completed >= 3 then [HomeRoute] else [])
    {
      if mediaLibrary != Resolved(true) {
        return;
      }
      if photo.None? {
        return;
      }
      var savedPhoto := store.CreateAsset(photo.value.uri, completed >= 1);
      if savedPhoto.None? {
        return;
      }
      var albums := store.GetAlbums(completed >= 2);
      if albums.None? {
        return;
      }
      var appAlbum := FindAlbum(albums.value, SaveLookupTitle);
      if appAlbum.Some? {
        var added := store.AddAssetsToAlbum([savedPhoto.value], appAlbum.value, completed >= 3);
        if !added {
          return;
        }
      } else {
        var created := store.CreateAlbum(CreateAlbumTitle, savedPhoto.value, completed >= 3);
        if created.None? {
          return;
        }
      }
      photo := None;
      pushed := pushed + [HomeRoute];
    }
  }
}
