/**
 * The application state holder (`AppStore`): six fields that views read and
 * assign, and one derived lookup, the selected profile.
 */
module AppStores {
  import opened Wrappers
  import opened Sequences
  import opened BoardTypes
  import opened Dates
  import opened Profiles
  import opened AppLocations
  import opened DisplaySettingsModel

  class AppStore {
    var selectedDate: Date
    var selectedBoardType: BoardType
    var selectedProfileId: Option<Uuid>
    var profiles: seq<Profile>
    var selectedLocation: AppLocation
    var displaySettings: DisplaySettings

    /**
     * `init`: every argument is stored unchanged. The date has no default here
     * because the app's default is the current moment, which the caller reads.
     */
    constructor (selectedDate: Date,
                 selectedBoardType: BoardType := Day,
                 selectedProfileId: Option<Uuid> := None,
                 profiles: seq<Profile> := [],
                 selectedLocation: AppLocation := TokyoStation,
                 displaySettings: DisplaySettings := DefaultSettings)
      ensures this.selectedDate == selectedDate
      ensures this.selectedBoardType == selectedBoardType
      ensures this.selectedProfileId == selectedProfileId
      ensures this.profiles == profiles
      ensures this.selectedLocation == selectedLocation
      ensures this.displaySettings == displaySettings
    {
      this.selectedDate := selectedDate;
      this.selectedBoardType := selectedBoardType;
      this.selectedProfileId := selectedProfileId;
      this.profiles := profiles;
      this.selectedLocation := selectedLocation;
      this.displaySettings := displaySettings;
    }

    /**
     * `selectedProfile`: nil without a selection; otherwise the first profile
     * carrying the selected id, or nil when none does (a dangling id is
     * tolerated, not corrected).
     */
    function SelectedProfile(): (r: Option<Profile>)
      reads this
      ensures selectedProfileId.None? ==> r.None?
      ensures r.Some? ==> r.value in profiles && selectedProfileId == Some(r.value.id)
      ensures r.Some? ==> exists i :: 0 <= i < |profiles| && profiles[i] == r.value &&
                            forall j :: 0 <= j < i ==> Some(profiles[j].id) != selectedProfileId
      ensures selectedProfileId.Some? ==>
                (r.None? <==> forall p :: p in profiles ==> p.id != selectedProfileId.value)
    {
      match selectedProfileId
      case None => None
      case Some(id) => FirstWhere(profiles, (p: Profile) => p.id == id)
    }
  }

  /** `AppStore()` as the app and its previews create it: every default in place. */
  method DefaultStore(now: Date) returns (store: AppStore)
    ensures fresh(store)
    ensures store.selectedDate == now && store.selectedBoardType == Day
    ensures store.selectedProfileId == None && store.profiles == []
    ensures store.selectedLocation == TokyoStation && store.displaySettings == DefaultSettings
    ensures store.SelectedProfile() == None
  {
    store := new AppStore(now);
  }

  /** With a selected id that some profile carries, the lookup succeeds and returns the first such profile. */
  lemma SelectedProfileFound(store: AppStore, i: nat)
    requires i < |store.profiles| && store.selectedProfileId == Some(store.profiles[i].id)
    requires forall j :: 0 <= j < i ==> store.profiles[j].id != store.profiles[i].id
    ensures store.SelectedProfile() == Some(store.profiles[i])
  {
    var r := store.SelectedProfile();
    assert r.Some? by { assert store.profiles[i] in store.profiles; }
    var k :| 0 <= k < |store.profiles| && store.profiles[k] == r.value &&
             forall j :: 0 <= j < k ==> Some(store.profiles[j].id) != store.selectedProfileId;
    assert k == i;
  }
}
