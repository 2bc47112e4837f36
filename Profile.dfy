/**
 * The profile page (app/profile/page.js): loading the signed-in user's profile,
 * own listings, wishlist and received testimonials; the edit form and its save;
 * removing a wishlist entry; deleting an own listing; taking a new photo; and the
 * displayed-name fallbacks. Backend answers and the `confirm` answer are inputs.
 */
module Profile {
  import opened Js
  import Seqs
  import Home
  import TestimonialCard

  /** The signed-in user as `auth.getUser()` returns it. */
  datatype User = User(id: string, email: string)

  /** A `profiles` row, as a JavaScript object whose fields may be missing. */
  datatype ProfileRow = ProfileRow(
    id: Option<string>,
    email: Option<string>,
    full_name: Option<string>,
    about_me: Option<string>,
    contact_info: Option<string>,
    photo_url: Option<string>)

  /** A profile object with no fields, what `{...null}` spreads to. */
  const EmptyRow: ProfileRow := ProfileRow(None, None, None, None, None, None)

  /** The three editable fields. */
  datatype EditForm = EditForm(full_name: string, about_me: string, contact_info: string)

  /** The wished-for provider joined onto a wishlist entry: `profiles (full_name, email)`. */
  datatype WishedProvider = WishedProvider(full_name: Option<string>, email: Option<string>)

  /** A `wishlists` row. */
  datatype WishlistEntry = WishlistEntry(id: string, user_id: string, provider_id: string, profiles: Option<WishedProvider>)

  /** The `update` sent to `profiles` by a save. */
  datatype ProfileUpdate = ProfileUpdate(id: string, form: EditForm)

  /** The edit form loaded from a profile: each field, or '' when it is falsy. */
  function FormFrom(p: ProfileRow): (f: EditForm)
    ensures Truthy(p.full_name) ==> f.full_name == p.full_name.value
    ensures Truthy(p.about_me) ==> f.about_me == p.about_me.value
    ensures Truthy(p.contact_info) ==> f.contact_info == p.contact_info.value
    ensures !Truthy(p.full_name) ==> f.full_name == ""
    ensures !Truthy(p.about_me) ==> f.about_me == ""
    ensures !Truthy(p.contact_info) ==> f.contact_info == ""
  {
    EditForm(Or(p.full_name, ""), Or(p.about_me, ""), Or(p.contact_info, ""))
  }

  /** `{ ...profile, ...editForm }`: the three edited fields overwritten, every other field kept. */
  function MergeForm(profile: Option<ProfileRow>, f: EditForm): (r: ProfileRow)
    ensures r.full_name == Some(f.full_name) && r.about_me == Some(f.about_me) && r.contact_info == Some(f.contact_info)
    ensures profile.Some? ==>
      r.(full_name := profile.value.full_name, about_me := profile.value.about_me,
         contact_info := profile.value.contact_info) == profile.value
    ensures profile.None? ==> r.id.None? && r.email.None? && r.photo_url.None?
  {
    var base := if profile.Some? then profile.value else EmptyRow;
    base.(full_name := Some(f.full_name), about_me := Some(f.about_me), contact_info := Some(f.contact_info))
  }

  /** `{ ...profile, photo_url: url }`: only the photo changes. */
  function MergePhoto(profile: Option<ProfileRow>, url: string): (r: ProfileRow)
    ensures r.photo_url == Some(url)
    ensures profile.Some? ==> r.(photo_url := profile.value.photo_url) == profile.value
    ensures profile.None? ==> r == EmptyRow.(photo_url := Some(url))
  {
    (if profile.Some? then profile.value else EmptyRow).(photo_url := Some(url))
  }

  /** `profile?.full_name` */
  function ProfileName(profile: Option<ProfileRow>): Option<string> {
    if profile.Some? then profile.value.full_name else None
  }

  /** The profile heading: the name, or 'Set your name'; never empty. */
  function HeadingName(profile: Option<ProfileRow>): (name: string)
    ensures name != ""
    ensures Truthy(ProfileName(profile)) ==> name == ProfileName(profile).value
    ensures !Truthy(ProfileName(profile)) ==> name == "Set your name"
  {
    Or(ProfileName(profile), "Set your name")
  }

  /** `w.profiles?.full_name` */
  function WishedName(w: WishlistEntry): Option<string> {
    if w.profiles.Some? then w.profiles.value.full_name else None
  }

  /** A wishlist entry's label: the provider's name, or 'Unknown'; never empty. */
  function WishlistName(w: WishlistEntry): (name: string)
    ensures name != ""
    ensures Truthy(WishedName(w)) ==> name == WishedName(w).value
    ensures !Truthy(WishedName(w)) ==> name == "Unknown"
  {
    Or(WishedName(w), "Unknown")
  }

  /** `wishlist.filter((w) => w.id !== wishlistId)` */
  function WithoutEntry(wishlist: seq<WishlistEntry>, wishlistId: string): (r: seq<WishlistEntry>)
    ensures forall k :: 0 <= k < |r| ==> r[k].id != wishlistId
  {
    Seqs.Filter(wishlist, (w: WishlistEntry) => w.id != wishlistId)
  }

  /** `myServices.filter((s) => s.id !== serviceId)` */
  function WithoutService(services: seq<Home.Service>, serviceId: string): (r: seq<Home.Service>)
    ensures forall k :: 0 <= k < |r| ==> r[k].id != serviceId
  {
    Seqs.Filter(services, (s: Home.Service) => s.id != serviceId)
  }

  /** Removing a wishlist entry keeps exactly the other entries, in their order. */
  lemma WithoutEntryKeepsOthers(wishlist: seq<WishlistEntry>, wishlistId: string, w: WishlistEntry)
    ensures w in WithoutEntry(wishlist, wishlistId) <==> w in wishlist && w.id != wishlistId
    ensures Seqs.IsSubsequence(WithoutEntry(wishlist, wishlistId), wishlist)
  {
    Seqs.FilterMembership(wishlist, (w: WishlistEntry) => w.id != wishlistId, w);
    Seqs.FilterIsSubsequence(wishlist, (w: WishlistEntry) => w.id != wishlistId);
  }

  /** Deleting a listing keeps exactly the other listings, in their order. */
  lemma WithoutServiceKeepsOthers(services: seq<Home.Service>, serviceId: string, s: Home.Service)
    ensures s in WithoutService(services, serviceId) <==> s in services && s.id != serviceId
    ensures Seqs.IsSubsequence(WithoutService(services, serviceId), services)
  {
    Seqs.FilterMembership(services, (s: Home.Service) => s.id != serviceId, s);
    Seqs.FilterIsSubsequence(services, (s: Home.Service) => s.id != serviceId);
  }

  /** Saving the form as loaded leaves the heading as it was. */
  lemma SaveUneditedKeepsHeading(p: ProfileRow)
    ensures HeadingName(Some(MergeForm(Some(p), FormFrom(p)))) == HeadingName(Some(p))
  {
  }

  /** The state slots of the page. */
  class ProfilePage {
    var user: Option<User>
    var profile: Option<ProfileRow>
    var myServices: seq<Home.Service>
    var wishlist: seq<WishlistEntry>
    var testimonials: seq<TestimonialCard.Testimonial>
    var loading: bool
    var editing: bool
    var editForm: EditForm
    var saveMessage: string
    /** The last `router.push` target, if any. */
    var navigatedTo: Option<string>

    constructor ()
      ensures user.None? && profile.None? && myServices == [] && wishlist == [] && testimonials == []
      ensures loading && !editing && editForm == EditForm("", "", "") && saveMessage == ""
      ensures navigatedTo.None?
    {
      user, profile := None, None;
      myServices, wishlist, testimonials := [], [], [];
      loading, editing := true, false;
      editForm := EditForm("", "", "");
      saveMessage := "";
      navigatedTo := None;
    }

    /**
     * `loadProfile`, given the signed-in user (if any) and the `data` of the four queries
     * (the profile, own listings, wishlist and testimonials).
     */
    method LoadProfile(signedIn: Option<User>, profileData: Option<ProfileRow>,
                       servicesData: Option<seq<Home.Service>>, wishlistData: Option<seq<WishlistEntry>>,
                       testimonialsData: Option<seq<TestimonialCard.Testimonial>>)
      modifies this
      ensures signedIn.None? ==>
        && navigatedTo == Some("/login") && loading
        && user == old(user) && profile == old(profile) && editForm == old(editForm)
        && myServices == old(myServices) && wishlist == old(wishlist) && testimonials == old(testimonials)
      ensures signedIn.Some? ==>
        && user == signedIn && !loading && navigatedTo == old(navigatedTo)
        && profile == (if profileData.Some? then profileData else old(profile))
        && editForm == (if profileData.Some? then FormFrom(profileData.value) else old(editForm))
        && myServices == (if servicesData.Some? then servicesData.value else [])
        && wishlist == (if wishlistData.Some? then wishlistData.value else [])
        && testimonials == (if testimonialsData.Some? then testimonialsData.value else [])
      ensures editing == old(editing) && saveMessage == old(saveMessage)
    {
      loading := true;
      if signedIn.None? {
        navigatedTo := Some("/login");
        return;
      }
      user := signedIn;
      if profileData.Some? {
        profile := profileData;
        editForm := FormFrom(profileData.value);
      }
      myServices := if servicesData.Some? then servicesData.value else [];
      wishlist := if wishlistData.Some? then wishlistData.value else [];
      testimonials := if testimonialsData.Some? then testimonialsData.value else [];
      loading := false;
    }

    /** The 'Edit Profile' button. */
    method StartEditing()
      modifies this`editing
      ensures editing
    {
      editing := true;
    }

    /** The editor's cancel button. */
    method CancelEditing()
      modifies this`editing
      ensures !editing
    {
      editing := false;
    }

    /** The editor's `onFormChange`. */
    method ChangeForm(f: EditForm)
      modifies this`editForm
      ensures editForm == f
    {
      editForm := f;
    }

    /**
     * `handleSaveProfile`, given the update's error (if any); returns the update sent.
     * Only reachable once a user has loaded the page.
     */
    method SaveProfile(updateError: Option<string>) returns (sent: ProfileUpdate)
      requires user.Some?
      modifies this`saveMessage, this`editing, this`profile
      ensures sent == ProfileUpdate(user.value.id, editForm)
      ensures updateError.None? ==>
        saveMessage == "Profile updated!" && !editing && profile == Some(MergeForm(old(profile), editForm))
      ensures updateError.Some? ==>
        saveMessage == old(saveMessage) && editing == old(editing) && profile == old(profile)
    {
      sent := ProfileUpdate(user.value.id, editForm);
      if updateError.None? {
        saveMessage := "Profile updated!";
        editing := false;
        profile := Some(MergeForm(profile, editForm));
      }
    }

    /** The timer that clears the save message three seconds later. */
    method ClearSaveMessage()
      modifies this`saveMessage
      ensures saveMessage == ""
    {
      saveMessage := "";
    }

    /** `removeWishlistItem`: the delete is sent and the entry dropped locally, whatever the answer. */
    method RemoveWishlistItem(wishlistId: string)
      modifies this`wishlist
      ensures wishlist == WithoutEntry(old(wishlist), wishlistId)
    {
      wishlist := Seqs.Filter(wishlist, (w: WishlistEntry) => w.id != wishlistId);
    }

    /** `deleteService`, given the answer to the confirmation dialog; returns whether the delete was sent. */
    method DeleteService(serviceId: string, confirmed: bool) returns (deleted: bool)
      modifies this`myServices
      ensures deleted == confirmed
      ensures myServices == if confirmed then WithoutService(old(myServices), serviceId) else old(myServices)
    {
      if !confirmed {
        return false;
      }
      myServices := Seqs.Filter(myServices, (s: Home.Service) => s.id != serviceId);
      deleted := true;
    }

    /** The avatar's `onPhotoUpdate`. */
    method PhotoUpdated(url: string)
      modifies this`profile, this`saveMessage
      ensures profile == Some(MergePhoto(old(profile), url))
      ensures saveMessage == "Photo updated!"
    {
      profile := Some(MergePhoto(profile, url));
      saveMessage := "Photo updated!";
    }
  }
}
