/** The company-profile editor (public/js/profile.js): saving name, phone and logo
    under one `localStorage` key and reflecting the stored profile in the preview.
    Storage is a map from key to profile record; the chosen file is its data URL. */
module CompanyProfile {
  import opened Common
  import opened Text

  const KEY := "companyProfile"

  /** The stored record; `logo` is `None` when it was `undefined` at save time. */
  datatype Profile = Profile(name: string, phone: string, logo: Option<string>)

  /** One submission of the form: the two text fields and the chosen file, if any. */
  datatype Edit = Edit(nameField: string, phoneField: string, file: Option<string>)

  /** The logo a submission saves: the chosen file, else the logo of the stored
      profile (`(JSON.parse(...) || {}).logo`), absent when nothing is stored. */
  function MergedLogo(file: Option<string>, storage: map<string, Profile>): (logo: Option<string>)
    ensures file.Some? ==> logo == file
    ensures file.None? && KEY in storage ==> logo == storage[KEY].logo
    ensures file.None? && KEY !in storage ==> logo == None
  {
    if file.Some? then file
    else if KEY in storage then storage[KEY].logo
    else None
  }

  /** The profile a submission saves. */
  function Saved(e: Edit, storage: map<string, Profile>): (p: Profile)
    ensures p.name == Trim(e.nameField) && p.phone == Trim(e.phoneField)
    ensures p.logo == MergedLogo(e.file, storage)
  {
    Profile(Trim(e.nameField), Trim(e.phoneField), MergedLogo(e.file, storage))
  }

  /** Storage after a submission: the whole value under the key is replaced. */
  function Save(storage: map<string, Profile>, e: Edit): (s: map<string, Profile>)
    ensures KEY in s && s[KEY] == Saved(e, storage)
    ensures s.Keys == storage.Keys + {KEY}
    ensures forall k :: k in storage && k != KEY ==> s[k] == storage[k]
  {
    storage[KEY := Saved(e, storage)]
  }

  /** Storage after several submissions in order. */
  function SaveAll(storage: map<string, Profile>, edits: seq<Edit>): map<string, Profile>
    decreases |edits|
  {
    if edits == [] then storage else Save(SaveAll(storage, edits[..|edits| - 1]), edits[|edits| - 1])
  }

  /** The file of the last submission that chose one. */
  function LastFile(edits: seq<Edit>): Option<string>
    decreases |edits|
  {
    if edits == [] then None
    else if edits[|edits| - 1].file.Some? then edits[|edits| - 1].file
    else LastFile(edits[..|edits| - 1])
  }

  /** After any run of submissions the stored logo is the last file chosen, or
      the logo stored before them when none chose a file. */
  lemma {:induction false} LogoIsLastChosen(storage: map<string, Profile>, edits: seq<Edit>)
    requires edits != []
    ensures KEY in SaveAll(storage, edits)
    ensures SaveAll(storage, edits)[KEY].logo ==
              if LastFile(edits).Some? then LastFile(edits)
              else if KEY in storage then storage[KEY].logo
              else None
  {
    var init := edits[..|edits| - 1];
    if init != [] {
      LogoIsLastChosen(storage, init);
    }
  }

  /** The preview pane: name, phone, logo image source and visibility. */
  datatype Preview = Preview(name: string, phone: string, logoSrc: Option<string>, logoShown: bool, shown: bool)

  const HIDDEN := Preview("", "", None, false, false)

  /** `loadProfile`: nothing changes when no profile is stored; otherwise name and
      phone are shown, and the logo is set and shown only when it is truthy. */
  function Loaded(storage: map<string, Profile>, pv: Preview): (r: Preview)
    ensures KEY !in storage ==> r == pv
    ensures KEY in storage ==> r.shown && r.name == storage[KEY].name && r.phone == storage[KEY].phone
    ensures KEY in storage && Truthy(storage[KEY].logo) ==> r.logoSrc == storage[KEY].logo && r.logoShown
    ensures KEY in storage && !Truthy(storage[KEY].logo) ==> r.logoSrc == pv.logoSrc && r.logoShown == pv.logoShown
  {
    if KEY !in storage then pv
    else
      var p := storage[KEY];
      if Truthy(p.logo) then Preview(p.name, p.phone, p.logo, true, true)
      else Preview(p.name, p.phone, pv.logoSrc, pv.logoShown, true)
  }

  /** The profile page: `localStorage` and the preview pane. */
  class ProfilePage {
    var storage: map<string, Profile>
    var preview: Preview

    /** `DOMContentLoaded`: the preview starts hidden, then `loadProfile()` runs. */
    constructor (stored: map<string, Profile>)
      ensures storage == stored && preview == Loaded(stored, HIDDEN)
    {
      storage := stored;
      preview := HIDDEN;
      new;
      LoadProfile();
    }

    method LoadProfile()
      modifies this`preview
      ensures preview == Loaded(storage, old(preview))
    {
      if KEY in storage {
        var p := storage[KEY];
        preview := preview.(name := p.name, phone := p.phone);
        if p.logo.Some? && p.logo.value != "" {
          preview := preview.(logoSrc := p.logo, logoShown := true);
        }
        preview := preview.(shown := true);
      }
    }

    /** `saveProfile`: overwrite the value under the key, then reload the preview. */
    method SaveProfile(name: string, phone: string, logo: Option<string>)
      modifies this
      ensures storage == old(storage)[KEY := Profile(name, phone, logo)]
      ensures preview == Loaded(storage, old(preview))
    {
      storage := storage[KEY := Profile(name, phone, logo)];
      LoadProfile();
    }

    /** The submit handler: trimmed fields, and the chosen file or the stored logo. */
    method Submit(e: Edit)
      modifies this
      ensures storage == Save(old(storage), e)
      ensures preview == Loaded(storage, old(preview))
      ensures preview.shown && preview.name == Trim(e.nameField) && preview.phone == Trim(e.phoneField)
      ensures Truthy(storage[KEY].logo) ==> preview.logoSrc == storage[KEY].logo && preview.logoShown
    {
      var name := Trim(e.nameField);
      var phone := Trim(e.phoneField);
      if e.file.Some? {
        SaveProfile(name, phone, e.file);
      } else {
        var existing := if KEY in storage then storage[KEY].logo else None;
        SaveProfile(name, phone, existing);
      }
    }
  }
}
