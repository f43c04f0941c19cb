/**
 * Editing one's own profile (src/screens/user/EditProfileScreen.js): the
 * screen compares the edited fields with the originals, checks the name and
 * the biography, and writes the changed fields to the user document and the
 * sign-in profile. The uploaded picture's URL is a parameter.
 */
module EditProfileScreen {
  import opened Wrappers
  import opened Text

  const NameWarning := "Name must contain between 1 and 20 characters"
  const BioWarning := "Biography contains invalid characters"

  /** The editable fields; `profileImage` is `None` when the picture is removed. */
  datatype Fields = Fields(name: string, username: string, bio: string, location: string, profileImage: Option<string>)

  /** The `change` effect: an if-chain over name, bio, location and picture. */
  function Change(original: Fields, edited: Fields): (change: bool)
    ensures change <==> (edited.name != original.name || edited.bio != original.bio
                         || edited.location != original.location || edited.profileImage != original.profileImage)
  {
    if edited.name != original.name then true
    else if edited.bio != original.bio then true
    else if edited.location != original.location then true
    else if edited.profileImage != original.profileImage then true
    else false
  }

  /** The username (changed on its own screen) never counts as a change. */
  lemma ChangeIgnoresUsername(original: Fields, edited: Fields, username: string)
    ensures Change(original, edited.(username := username)) == Change(original, edited)
    ensures Change(original.(username := username), edited) == Change(original, edited)
  {
  }

  /** What `checkBio` refuses: an empty line, written `includes('\n\n') || startsWith('\n')`. */
  predicate BioInvalid(bio: string) {
    Contains(bio, "\n\n") || StartsWith(bio, "\n")
  }

  /** A bio is refused iff some line break starts the text or follows another line break. */
  lemma BioInvalidIff(bio: string)
    ensures BioInvalid(bio) <==> exists i :: 0 <= i < |bio| && bio[i] == '\n' && (i == 0 || bio[i - 1] == '\n')
  {
    if BioInvalid(bio) {
      if StartsWith(bio, "\n") {
        assert bio[0] == bio[..1][0];
      } else {
        var j: nat :| MatchAt(bio, "\n\n", j);
        assert bio[j] == bio[j..j + 2][0] && bio[j + 1] == bio[j..j + 2][1];
        assert bio[j + 1] == '\n' && bio[j + 1 - 1] == '\n';
      }
    }
    if exists i :: 0 <= i < |bio| && bio[i] == '\n' && (i == 0 || bio[i - 1] == '\n') {
      var i :| 0 <= i < |bio| && bio[i] == '\n' && (i == 0 || bio[i - 1] == '\n');
      if i == 0 {
        assert bio[..1] == "\n";
      } else {
        assert bio[i - 1..i + 1] == "\n\n";
        assert MatchAt(bio, "\n\n", i - 1);
      }
    }
  }

  datatype Warnings = Warnings(name: Option<string>, bio: Option<string>)

  /** `checkName()`, which calls `checkBio()`, which calls `saveChanges()`: the new warnings, and whether the save runs. */
  function CheckName(edited: Fields, w: Warnings): (Warnings, bool) {
    if |edited.name| < 1 then (w.(name := Some(NameWarning)), false)
    else if Contains(edited.bio, "\n\n") then (w.(bio := Some(BioWarning)), false)
    else if StartsWith(edited.bio, "\n") then (w.(bio := Some(BioWarning)), false)
    else (w, true)
  }

  /**
   * The save runs exactly when the name is non-empty and the bio is valid; an
   * empty name gets the name warning, and otherwise an invalid bio gets the bio
   * warning.
   */
  lemma CheckNameSpec(edited: Fields, w: Warnings)
    ensures var (w', save) := CheckName(edited, w);
      && (save <==> |edited.name| >= 1 && !BioInvalid(edited.bio))
      && (save ==> w' == w)
      && (|edited.name| == 0 ==> w'.name == Some(NameWarning) && w'.bio == w.bio)
      && (|edited.name| > 0 && BioInvalid(edited.bio) ==> w'.bio == Some(BioWarning) && w'.name == w.name)
  {
  }

  /** `SaveButton`: pressable iff no warning is up and something changed. */
  predicate SaveEnabled(w: Warnings, change: bool) {
    if w.name.Some? || w.bio.Some? then false
    else change
  }

  lemma SaveEnabledIff(w: Warnings, original: Fields, edited: Fields)
    ensures SaveEnabled(w, Change(original, edited)) <==>
      w.name == None && w.bio == None
      && (edited.name != original.name || edited.bio != original.bio
          || edited.location != original.location || edited.profileImage != original.profileImage)
  {
  }

  /** The stored biography: one trailing line break, if any, is dropped (`str.slice(0, -1)`). */
  function StoredBio(bio: string): (stored: string)
    ensures EndsWith(bio, "\n") ==> stored + "\n" == bio
    ensures !EndsWith(bio, "\n") ==> stored == bio
  {
    if EndsWith(bio, "\n") then bio[..|bio| - 1] else bio
  }

  /** The fields `saveChanges` writes: the user document and the sign-in profile's name and photo. */
  datatype Document = Document(name: string, bio: string, location: string, profileImageURL: Option<string>,
                               displayName: string, photoURL: string)

  /** The document after the writes of `saveChanges`, in their order; a removed picture stores null and an empty photo URL. */
  function Saved(d: Document, original: Fields, edited: Fields, uploadURL: string): Document {
    var d1 := if edited.name != original.name then d.(name := edited.name, displayName := edited.name) else d;
    var d2 := if edited.bio != original.bio then d1.(bio := StoredBio(edited.bio)) else d1;
    var d3 := if edited.location != original.location then d2.(location := edited.location) else d2;
    if edited.profileImage != original.profileImage then
      if edited.profileImage.Some? then d3.(profileImageURL := Some(uploadURL), photoURL := uploadURL)
      else d3.(profileImageURL := None, photoURL := "")
    else d3
  }

  /** Exactly the fields that differ from their originals are written, each with its edited value. */
  lemma SavedSpec(d: Document, original: Fields, edited: Fields, uploadURL: string)
    ensures var r := Saved(d, original, edited, uploadURL);
      && (edited.name != original.name ==> r.name == edited.name && r.displayName == edited.name)
      && (edited.name == original.name ==> r.name == d.name && r.displayName == d.displayName)
      && (edited.bio != original.bio ==> r.bio == StoredBio(edited.bio))
      && (edited.bio == original.bio ==> r.bio == d.bio)
      && (edited.location != original.location ==> r.location == edited.location)
      && (edited.location == original.location ==> r.location == d.location)
      && (edited.profileImage != original.profileImage ==>
            (edited.profileImage.Some? ==> r.profileImageURL == Some(uploadURL) && r.photoURL == uploadURL)
            && (edited.profileImage.None? ==> r.profileImageURL == None && r.photoURL == ""))
      && (edited.profileImage == original.profileImage ==> r.profileImageURL == d.profileImageURL && r.photoURL == d.photoURL)
      && (!Change(original, edited) ==> r == d)
  {
  }

  /** The user document and sign-in profile, written field by field. */
  class UserDocument {
    var name: string
    var bio: string
    var location: string
    var profileImageURL: Option<string>
    var displayName: string
    var photoURL: string

    constructor(d: Document)
      ensures Snapshot() == d
    {
      name := d.name;
      bio := d.bio;
      location := d.location;
      profileImageURL := d.profileImageURL;
      displayName := d.displayName;
      photoURL := d.photoURL;
    }

    function Snapshot(): Document
      reads this
    {
      Document(name, bio, location, profileImageURL, displayName, photoURL)
    }

    /** The field writes of `saveChanges`, one `updateDoc`/`updateProfile` at a time. */
    method WriteChanges(original: Fields, edited: Fields, uploadURL: string)
      modifies this
      ensures Snapshot() == Saved(old(Snapshot()), original, edited, uploadURL)
    {
      if edited.name != original.name {
        name := edited.name;
        displayName := edited.name;
      }
      if edited.bio != original.bio {
        if EndsWith(edited.bio, "\n") {
          var str := edited.bio;
          bio := str[..|str| - 1];
        } else {
          bio := edited.bio;
        }
      }
      if edited.location != original.location {
        location := edited.location;
      }
      if edited.profileImage != original.profileImage {
        if edited.profileImage.Some? {
          profileImageURL := Some(uploadURL);
          photoURL := uploadURL;
        } else {
          profileImageURL := None;
          photoURL := "";
        }
      }
    }

    /** `saveChanges()` as written: going back when offline does not stop the writes. Returns that the screen went back. */
    method SaveChangesAsWritten(original: Fields, edited: Fields, isConnected: bool, uploadURL: string) returns (wentBack: bool)
      modifies this
      ensures wentBack
      ensures Snapshot() == Saved(old(Snapshot()), original, edited, uploadURL)
    {
      if !isConnected {
        wentBack := true;
      }
      WriteChanges(original, edited, uploadURL);
      wentBack := true;
    }

    /** `saveChanges()` as its comment intends: offline, it goes back without saving. */
    method SaveChanges(original: Fields, edited: Fields, isConnected: bool, uploadURL: string) returns (wentBack: bool)
      modifies this
      ensures wentBack
      ensures !isConnected ==> Snapshot() == old(Snapshot())
      ensures isConnected ==> Snapshot() == Saved(old(Snapshot()), original, edited, uploadURL)
    {
      if !isConnected {
        return true;
      }
      WriteChanges(original, edited, uploadURL);
      wentBack := true;
    }
  }

  /** As written, an offline save of a renamed profile still renames it. */
  lemma OfflineSaveStillWrites()
    ensures var d := Document("Ann", "", "", None, "Ann", "");
      var original := Fields("Ann", "ann", "", "", None);
      Saved(d, original, original.(name := "Bo"), "").name == "Bo"
  {
  }
}
