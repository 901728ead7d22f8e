/** The profile settings page: it shows the signed-in user's profile, lets them edit their
    name, bio and contact preferences in a form, and saves, cancels or takes a new avatar.
    The profile service's answers are parameters. */
module ProfilePage {
  import opened Common
  import opened JsText
  import opened BreadcrumbContext

  /** A contact preference as the form holds it: a checkbox's `checked` flag, or the text of
      any other input whose name selects a preference. */
  datatype PrefValue = Flag(on: bool) | Text(text: string)

  type Prefs = map<string, PrefValue>

  /** The user's profile as the server returns it. */
  datatype Profile = Profile(
    id: string,
    name: Option<string>,
    email: string,
    role: string,
    avatar: Option<string>,
    bio: Option<string>,
    contactPreferences: Option<Prefs>,
    createdAt: string,
    updatedAt: string)

  /** The edit form: its top-level text fields by input name, and its contact
      preferences. */
  datatype Form = Form(fields: map<string, string>, prefs: Prefs)

  const DefaultPrefs: Prefs := map["emailNotifications" := Flag(true), "smsNotifications" := Flag(false)]
  const EmptyForm := Form(map["name" := "", "bio" := ""], DefaultPrefs)
  const PrefPrefix := "contactPreferences."

  /** The form filled from a profile: a missing or empty name or bio becomes the empty text,
      missing preferences become e-mail on, SMS off. */
  function FormFrom(p: Profile): (f: Form)
    ensures f.fields.Keys == {"name", "bio"}
    ensures Truthy(p.name) ==> f.fields["name"] == p.name.value
    ensures !Truthy(p.name) ==> f.fields["name"] == ""
    ensures Truthy(p.bio) ==> f.fields["bio"] == p.bio.value
    ensures !Truthy(p.bio) ==> f.fields["bio"] == ""
    ensures p.contactPreferences.Some? ==> f.prefs == p.contactPreferences.value
    ensures p.contactPreferences.None? ==> f.prefs == DefaultPrefs
  {
    Form(map["name" := OrElse(p.name, ""), "bio" := OrElse(p.bio, "")],
         p.contactPreferences.GetOr(DefaultPrefs))
  }

  /** The text of `s` up to its first '.', or all of it when it has none. */
  function BeforeDot(s: string): (r: string)
    ensures |r| <= |s| && r == s[..|r|]
    ensures forall i :: 0 <= i < |r| ==> r[i] != '.'
    ensures r == s || s[|r|] == '.'
  {
    if s == [] || s[0] == '.' then [] else [s[0]] + BeforeDot(s[1..])
  }

  /** `name.split('.')[1]` for a name that starts with the preference prefix. */
  function PrefKey(name: string): (key: string)
    requires StartsWith(name, PrefPrefix)
    ensures forall i :: 0 <= i < |key| ==> key[i] != '.'
    ensures StartsWith(name, PrefPrefix + key)
    ensures |name| == |PrefPrefix + key| || name[|PrefPrefix + key|] == '.'
  {
    BeforeDot(name[|PrefPrefix|..])
  }

  /** The preference inputs' names give back the preference they were built from. */
  lemma PrefKeyRoundTrip(key: string)
    requires forall i :: 0 <= i < |key| ==> key[i] != '.'
    ensures StartsWith(PrefPrefix + key, PrefPrefix)
    ensures PrefKey(PrefPrefix + key) == key
  {
    var name := PrefPrefix + key;
    assert name[..|PrefPrefix|] == PrefPrefix;
    assert name[|PrefPrefix|..] == key;
  }

  /** `handleInputChange`'s update: an input named under the preference prefix sets that one
      preference (to the checkbox's flag, or to the input's text), any other input sets the
      top-level field of its name; nothing else in the form changes. */
  function ChangeForm(f: Form, name: string, value: string, isCheckbox: bool, checked: bool): (g: Form)
    ensures StartsWith(name, PrefPrefix) ==>
              g.fields == f.fields
              && g.prefs.Keys == f.prefs.Keys + {PrefKey(name)}
              && g.prefs[PrefKey(name)] == (if isCheckbox then Flag(checked) else Text(value))
              && forall k :: k in f.prefs && k != PrefKey(name) ==> g.prefs[k] == f.prefs[k]
    ensures !StartsWith(name, PrefPrefix) ==>
              g.prefs == f.prefs
              && g.fields.Keys == f.fields.Keys + {name}
              && g.fields[name] == value
              && forall k :: k in f.fields && k != name ==> g.fields[k] == f.fields[k]
  {
    if StartsWith(name, PrefPrefix) then
      f.(prefs := f.prefs[PrefKey(name) := if isCheckbox then Flag(checked) else Text(value)])
    else
      f.(fields := f.fields[name := value])
  }

  /** Repeating the same input event changes nothing more. */
  lemma ChangeIdempotent(f: Form, name: string, value: string, isCheckbox: bool, checked: bool)
    ensures ChangeForm(ChangeForm(f, name, value, isCheckbox, checked), name, value, isCheckbox, checked)
            == ChangeForm(f, name, value, isCheckbox, checked)
  {
    var g := ChangeForm(f, name, value, isCheckbox, checked);
    var h := ChangeForm(g, name, value, isCheckbox, checked);
    if StartsWith(name, PrefPrefix) {
      assert h.prefs == g.prefs;
    } else {
      assert h.fields == g.fields;
    }
  }

  /** Ticking a preference's box sets exactly that preference to the box's state, whatever
      the input's value text is. */
  lemma CheckboxSetsItsPreference(f: Form, key: string, value: string, checked: bool)
    requires forall i :: 0 <= i < |key| ==> key[i] != '.'
    ensures ChangeForm(f, PrefPrefix + key, value, true, checked) == f.(prefs := f.prefs[key := Flag(checked)])
  {
    PrefKeyRoundTrip(key);
  }

  /** Edits to two different text fields do not interfere: their order does not matter. */
  lemma FieldEditsCommute(f: Form, n1: string, v1: string, n2: string, v2: string)
    requires !StartsWith(n1, PrefPrefix) && !StartsWith(n2, PrefPrefix) && n1 != n2
    ensures ChangeForm(ChangeForm(f, n1, v1, false, false), n2, v2, false, false)
            == ChangeForm(ChangeForm(f, n2, v2, false, false), n1, v1, false, false)
  {
    assert f.fields[n1 := v1][n2 := v2] == f.fields[n2 := v2][n1 := v1];
  }

  /** The page's trail: the dashboard, then this page. */
  const ProfileCrumbs := [
    BreadcrumbItem("Dashboard", None, Some("🏠"), Some(Navigate("/dashboard"))),
    BreadcrumbItem("Profile Settings", None, Some("👤"), None)
  ]

  datatype Effect = SetBreadcrumbs(items: seq<BreadcrumbItem>) | GetProfile | UpdateProfile(form: Form)
                  | Alert(message: string)

  class Page {
    var profile: Option<Profile>
    var loading: bool
    var isEditing: bool
    var isSaving: bool
    var form: Form

    constructor()
      ensures profile.None? && loading && !isEditing && !isSaving && form == EmptyForm
    {
      profile := None;
      loading := true;
      isEditing := false;
      isSaving := false;
      form := EmptyForm;
    }

    /** `fetchProfile`: on success the profile is shown and the form is filled from it; on
        failure both stay as they were. Loading ends either way. */
    method FetchProfile(answer: Outcome<Profile>) returns (effects: seq<Effect>)
      modifies this`profile, this`form, this`loading
      ensures effects == [GetProfile] && !loading
      ensures answer.Ok? ==> profile == Some(answer.value) && form == FormFrom(answer.value)
      ensures answer.Err? ==> profile == old(profile) && form == old(form)
    {
      loading := true;
      effects := [GetProfile];
      if answer.Ok? {
        profile := Some(answer.value);
        form := FormFrom(answer.value);
      }
      loading := false;
    }

    /** What the page does when it is shown: install its trail, then fetch. */
    method Mount(answer: Outcome<Profile>) returns (effects: seq<Effect>)
      modifies this`profile, this`form, this`loading
      ensures effects == [SetBreadcrumbs(ProfileCrumbs), GetProfile] && !loading
      ensures answer.Ok? ==> profile == Some(answer.value) && form == FormFrom(answer.value)
      ensures answer.Err? ==> profile == old(profile) && form == old(form)
    {
      var fetched := FetchProfile(answer);
      effects := [SetBreadcrumbs(ProfileCrumbs)] + fetched;
    }

    /** The Edit Profile button. */
    method StartEditing()
      modifies this`isEditing
      ensures isEditing
    {
      isEditing := true;
    }

    /** `handleInputChange`. */
    method HandleInputChange(name: string, value: string, isCheckbox: bool, checked: bool)
      modifies this`form
      ensures form == ChangeForm(old(form), name, value, isCheckbox, checked)
    {
      if StartsWith(name, PrefPrefix) {
        var key := PrefKey(name);
        form := form.(prefs := form.prefs[key := if isCheckbox then Flag(checked) else Text(value)]);
      } else {
        form := form.(fields := form.fields[name := value]);
      }
    }

    /** `handleSave`: the form is sent as it is; on success the server's copy of the user
        replaces the profile and editing ends, on failure the user is alerted and stays in
        the editor with the form intact. Saving ends either way. */
    method HandleSave(answer: Outcome<Profile>) returns (effects: seq<Effect>)
      modifies this`profile, this`isEditing, this`isSaving
      ensures !isSaving
      ensures answer.Ok? ==>
                effects == [UpdateProfile(form)] && profile == Some(answer.value) && !isEditing
      ensures answer.Err? ==>
                effects == [UpdateProfile(form), Alert(ErrorText(answer, "Failed to update profile"))]
                && profile == old(profile) && isEditing == old(isEditing)
    {
      isSaving := true;
      effects := [UpdateProfile(form)];
      if answer.Ok? {
        profile := Some(answer.value);
        isEditing := false;
      } else {
        effects := effects + [Alert(ErrorText(answer, "Failed to update profile"))];
      }
      isSaving := false;
    }

    /** `handleCancel`: unsaved edits are discarded by refilling the form from the profile
        shown (when there is one), and editing ends. */
    method HandleCancel()
      modifies this`form, this`isEditing
      ensures !isEditing
      ensures profile.Some? ==> form == FormFrom(profile.value)
      ensures profile.None? ==> form == old(form)
    {
      if profile.Some? {
        form := FormFrom(profile.value);
      }
      isEditing := false;
    }

    /** `handleAvatarUpdate`: the new URL becomes the profile's avatar; nothing else in the
        profile changes, and without a profile nothing happens. */
    method HandleAvatarUpdate(url: string)
      modifies this`profile
      ensures old(profile).None? ==> profile.None?
      ensures old(profile).Some? ==>
                profile.Some? && profile.value.avatar == Some(url)
                && profile.value.(avatar := old(profile).value.avatar) == old(profile).value
    {
      if profile.Some? {
        profile := Some(profile.value.(avatar := Some(url)));
      }
    }
  }
}
