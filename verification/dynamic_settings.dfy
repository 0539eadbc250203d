/**
 * The logic of DynamicSettingsViewController.swift: the filter that keeps the
 * settings the current user has and the categories that still have settings,
 * the table's section and row counts, and the height of the table.
 */
module DynamicSettings {
  import opened Wrappers

  /** The height of one row (`DynamicSettingsCellHeight`). */
  const CellHeight: int := 50

  /** A setting of a category; only its key matters to the filter. */
  datatype Setting = Setting(key: string, text: string)

  /**
   * The current user, given by the keys `hasProperty` answers `true` for.
   */
  datatype User = User(propertyKeys: set<string>)

  /** `currentUser?.hasProperty(key) == true`. */
  predicate HasProperty(user: Option<User>, key: string)
  {
    user.Some? && key in user.value.propertyKeys
  }

  /** `a` is `b` with some elements left out, the rest in their order. */
  predicate IsSubsequence<T(==)>(a: seq<T>, b: seq<T>)
    decreases |b|
  {
    if a == [] then true
    else if b == [] then false
    else (a[|a| - 1] == b[|b| - 1] && IsSubsequence(a[..|a| - 1], b[..|b| - 1]))
         || IsSubsequence(a, b[..|b| - 1])
  }

  /** The inner `reduce`: the settings the user has, appended in their order. */
  function OwnedSettings(settings: seq<Setting>, user: Option<User>): (owned: seq<Setting>)
    ensures |owned| <= |settings|
    decreases |settings|
  {
    if settings == [] then []
    else
      var init := OwnedSettings(settings[..|settings| - 1], user);
      var last := settings[|settings| - 1];
      if HasProperty(user, last.key) then init + [last] else init
  }

  /** Every kept setting is one of the input's, and the user has it. */
  lemma {:induction false} OwnedSettingsSound(settings: seq<Setting>, user: Option<User>)
    ensures forall x | x in OwnedSettings(settings, user) :: x in settings && HasProperty(user, x.key)
    decreases |settings|
  {
    if settings != [] {
      OwnedSettingsSound(settings[..|settings| - 1], user);
    }
  }

  /** Every setting the user has is kept. */
  lemma {:induction false} OwnedSettingsComplete(settings: seq<Setting>, user: Option<User>)
    ensures forall i | 0 <= i < |settings| && HasProperty(user, settings[i].key) ::
              settings[i] in OwnedSettings(settings, user)
    decreases |settings|
  {
    if settings != [] {
      var init := settings[..|settings| - 1];
      OwnedSettingsComplete(init, user);
      assert forall i | 0 <= i < |init| :: init[i] == settings[i];
    }
  }

  /** The kept settings keep their relative order. */
  lemma {:induction false} OwnedSettingsOrdered(settings: seq<Setting>, user: Option<User>)
    ensures IsSubsequence(OwnedSettings(settings, user), settings)
    decreases |settings|
  {
    if settings != [] {
      var init := settings[..|settings| - 1];
      var last := settings[|settings| - 1];
      OwnedSettingsOrdered(init, user);
      var kept := OwnedSettings(init, user);
      if HasProperty(user, last.key) {
        assert (kept + [last])[..|kept + [last]| - 1] == kept;
      } else if kept != [] {
        assert IsSubsequence(kept, settings);
      }
    }
  }

  /**
   * Each setting the user has is kept as many times as it occurs, and every
   * other setting not at all.
   */
  lemma {:induction false} OwnedSettingsMultiplicity(settings: seq<Setting>, user: Option<User>)
    ensures forall x :: multiset(OwnedSettings(settings, user))[x] ==
                          if HasProperty(user, x.key) then multiset(settings)[x] else 0
    decreases |settings|
  {
    if settings != [] {
      var init := settings[..|settings| - 1];
      var last := settings[|settings| - 1];
      OwnedSettingsMultiplicity(init, user);
      assert settings == init + [last];
      assert multiset(settings) == multiset(init) + multiset{last};
    }
  }

  /** With no current user every setting is dropped. */
  lemma {:induction false} NoUserOwnsNothing(settings: seq<Setting>)
    ensures OwnedSettings(settings, None) == []
    decreases |settings|
  {
    if settings != [] {
      NoUserOwnsNothing(settings[..|settings| - 1]);
    }
  }

  /** Filtering an already filtered list changes nothing. */
  lemma {:induction false} OwnedSettingsIdempotent(settings: seq<Setting>, user: Option<User>)
    ensures OwnedSettings(OwnedSettings(settings, user), user) == OwnedSettings(settings, user)
    decreases |settings|
  {
    if settings != [] {
      var init := settings[..|settings| - 1];
      var last := settings[|settings| - 1];
      OwnedSettingsIdempotent(init, user);
      var once := OwnedSettings(init, user);
      if HasProperty(user, last.key) {
        assert (once + [last])[..|once + [last]| - 1] == once;
      }
    }
  }

  /** One category of settings; the filter overwrites its `settings`. */
  class DynamicSettingCategory {
    const text: string  // the category's `label`
    var settings: seq<Setting>

    constructor (text: string, settings: seq<Setting>)
      ensures this.text == text && this.settings == settings
    {
      this.text := text;
      this.settings := settings;
    }
  }

  /** The categories of `categories` whose settings are non-empty, in order. */
  ghost function NonEmptyCategories(categories: seq<DynamicSettingCategory>): (kept: seq<DynamicSettingCategory>)
    reads set c | c in categories
    ensures |kept| <= |categories|
    decreases |categories|
  {
    if categories == [] then []
    else
      var last := categories[|categories| - 1];
      NonEmptyCategories(categories[..|categories| - 1]) + (if last.settings != [] then [last] else [])
  }

  /** A category is kept exactly when its settings are non-empty. */
  lemma {:induction false} NonEmptyCategoriesKeepExactly(categories: seq<DynamicSettingCategory>)
    ensures forall c | c in NonEmptyCategories(categories) :: c in categories && c.settings != []
    ensures forall k | 0 <= k < |categories| && categories[k].settings != [] ::
              categories[k] in NonEmptyCategories(categories)
    decreases |categories|
  {
    if categories != [] {
      var init := categories[..|categories| - 1];
      NonEmptyCategoriesKeepExactly(init);
      assert forall k | 0 <= k < |init| :: init[k] == categories[k];
    }
  }

  /**
   * Each category with settings is kept as many times as it is listed, and every
   * other category not at all.
   */
  lemma {:induction false} NonEmptyCategoriesMultiplicity(categories: seq<DynamicSettingCategory>)
    ensures forall c: DynamicSettingCategory :: multiset(NonEmptyCategories(categories))[c] ==
                          if c.settings != [] then multiset(categories)[c] else 0
    decreases |categories|
  {
    if categories != [] {
      var init := categories[..|categories| - 1];
      var last := categories[|categories| - 1];
      NonEmptyCategoriesMultiplicity(init);
      assert categories == init + [last];
      assert multiset(categories) == multiset(init) + multiset{last};
    }
  }

  /** The kept categories keep their relative order. */
  lemma {:induction false} NonEmptyCategoriesOrdered(categories: seq<DynamicSettingCategory>)
    ensures IsSubsequence(NonEmptyCategories(categories), categories)
    decreases |categories|
  {
    if categories != [] {
      var init := categories[..|categories| - 1];
      var last := categories[|categories| - 1];
      NonEmptyCategoriesOrdered(init);
      var kept := NonEmptyCategories(init);
      if last.settings != [] {
        assert (kept + [last])[..|kept + [last]| - 1] == kept;
      } else {
        assert NonEmptyCategories(categories) == kept + [] == kept;
      }
    }
  }

  /** The first `n` categories whose entry in `lists` is non-empty, in order. */
  ghost function Survivors(categories: seq<DynamicSettingCategory>, lists: seq<seq<Setting>>, n: nat): seq<DynamicSettingCategory>
    requires n <= |categories| && n <= |lists|
  {
    if n == 0 then []
    else Survivors(categories, lists, n - 1) + (if lists[n - 1] != [] then [categories[n - 1]] else [])
  }

  lemma {:induction false} SurvivorsOfCurrentSettings(categories: seq<DynamicSettingCategory>, lists: seq<seq<Setting>>, n: nat)
    requires n <= |categories| && n <= |lists|
    requires forall k | 0 <= k < n :: lists[k] == categories[k].settings
    ensures Survivors(categories, lists, n) == NonEmptyCategories(categories[..n])
  {
    if n > 0 {
      SurvivorsOfCurrentSettings(categories, lists, n - 1);
      assert categories[..n][..n - 1] == categories[..n - 1];
    }
  }

  /** `category.settings = category.settings.reduce(...)`: keep the settings the user has. */
  method FilterSettings(category: DynamicSettingCategory, user: Option<User>) returns (filtered: seq<Setting>)
    modifies category
    ensures filtered == category.settings == OwnedSettings(old(category.settings), user)
  {
    filtered := OwnedSettings(category.settings, user);
    category.settings := filtered;
  }

  /**
   * The loop invariant of `KeepOwnedCategories` after the first `n` categories:
   * a category already visited holds its filtered list `target[k]`, any other
   * still holds its loaded list `original[k]`, and `kept` holds the visited
   * categories whose filtered list is non-empty.
   */
  ghost predicate FilteredUpTo(categories: seq<DynamicSettingCategory>, original: seq<seq<Setting>>,
                               target: seq<seq<Setting>>, done: set<DynamicSettingCategory>,
                               kept: seq<DynamicSettingCategory>, n: nat)
    reads set c | c in categories
  {
    && n <= |categories| == |original| == |target|
    && (forall k | 0 <= k < |categories| ::
          categories[k].settings == if categories[k] in done then target[k] else original[k])
    && (forall k | 0 <= k < n :: categories[k] in done)
    && kept == Survivors(categories, target, n)
  }

  /** One turn of the outer `reduce`: filter category `i` and keep it if it has settings. */
  method FilterNext(categories: seq<DynamicSettingCategory>, user: Option<User>,
                    ghost original: seq<seq<Setting>>, ghost target: seq<seq<Setting>>,
                    ghost done: set<DynamicSettingCategory>, kept: seq<DynamicSettingCategory>, i: nat)
    returns (ghost done': set<DynamicSettingCategory>, kept': seq<DynamicSettingCategory>)
    requires i < |categories|
    requires FilteredUpTo(categories, original, target, done, kept, i)
    requires forall k | 0 <= k < |target| :: target[k] == OwnedSettings(original[k], user)
    modifies categories[i]
    ensures FilteredUpTo(categories, original, target, done', kept', i + 1)
  {
    var category := categories[i];
    OwnedSettingsIdempotent(original[i], user);
    assert OwnedSettings(category.settings, user) == target[i];
    var filtered := FilterSettings(category, user);
    done' := done + {category};
    kept' := kept;
    if |filtered| > 0 {
      kept' := kept + [category];
    }
  }

  /**
   * The outer `reduce` of `viewDidLoad`: overwrite every category's settings with
   * those the user has, and keep the categories still holding settings.
   */
  method KeepOwnedCategories(categories: seq<DynamicSettingCategory>, user: Option<User>)
    returns (kept: seq<DynamicSettingCategory>)
    modifies set c | c in categories
    ensures forall k | 0 <= k < |categories| ::
              categories[k].settings == OwnedSettings(old(categories[k].settings), user)
    ensures kept == NonEmptyCategories(categories)
  {
    ghost var original := seq(|categories|, k requires 0 <= k < |categories| reads categories => categories[k].settings);
    ghost var target := seq(|categories|, k requires 0 <= k < |categories| => OwnedSettings(original[k], user));
    ghost var done: set<DynamicSettingCategory> := {};
    kept := [];
    for i := 0 to |categories|
      invariant forall k | 0 <= k < |categories| :: original[k] == old(categories[k].settings)
      invariant forall k | 0 <= k < |target| :: target[k] == OwnedSettings(original[k], user)
      invariant FilteredUpTo(categories, original, target, done, kept, i)
    {
      done, kept := FilterNext(categories, user, original, target, done, kept, i);
    }
    SurvivorsOfCurrentSettings(categories, target, |categories|);
    assert categories[..|categories|] == categories;
  }

  /** The sections of the table (`DynamicSettingsSection`). */
  datatype DynamicSettingsSection = DynamicSettings | MutedBlocked | AccountDeletion | Unknown {
    function RawValue(): int
    {
      match this
      case DynamicSettings => 0
      case MutedBlocked => 1
      case AccountDeletion => 2
      case Unknown => 3
    }
  }

  /** `DynamicSettingsSection(rawValue:)`. */
  function SectionFromRaw(raw: int): (section: Option<DynamicSettingsSection>)
    ensures section.Some? <==> 0 <= raw <= 3
    ensures section.Some? ==> section.value.RawValue() == raw
  {
    if raw == 0 then Some(DynamicSettings)
    else if raw == 1 then Some(MutedBlocked)
    else if raw == 2 then Some(AccountDeletion)
    else if raw == 3 then Some(Unknown)
    else None
  }

  /** `DynamicSettingsSection.count`: the raw value of `Unknown`. */
  function SectionCount(): (n: int)
    ensures n == 3
    ensures SectionFromRaw(n) == Some(Unknown)
  {
    Unknown.RawValue()
  }

  class DynamicSettingsViewController {
    var dynamicCategories: seq<DynamicSettingCategory>
    var currentUser: Option<User>

    constructor (currentUser: Option<User>)
      ensures this.currentUser == currentUser && dynamicCategories == []
    {
      this.currentUser := currentUser;
      dynamicCategories := [];
    }

    /** `numberOfSectionsInTableView`. */
    function NumberOfSections(): (n: int)
      ensures n == 3
    {
      SectionCount()
    }

    /** `tableView(_:numberOfRowsInSection:)`. */
    function NumberOfRowsInSection(section: int): (rows: int)
      reads this
      ensures section == 0 ==> rows == |dynamicCategories|
      ensures section == 1 || section == 2 ==> rows == 1
      ensures section < 0 || section > 2 ==> rows == 0
    {
      match SectionFromRaw(section).GetOr(Unknown)
      case DynamicSettings => |dynamicCategories|
      case MutedBlocked => 1
      case AccountDeletion => 1
      case Unknown => 0
    }

    /** The rows of the sections before `n`. */
    ghost function RowsBefore(n: nat): int
      reads this
    {
      if n == 0 then 0 else RowsBefore(n - 1) + NumberOfRowsInSection(n - 1)
    }

    /** `height`: the height of every row of every section. */
    method Height() returns (h: int)
      ensures h == CellHeight * RowsBefore(NumberOfSections())
      ensures h == CellHeight * (|dynamicCategories| + 2)
    {
      var totalRows := 0;
      var sections := NumberOfSections();
      for section := 0 to sections
        invariant totalRows == RowsBefore(section)
      {
        totalRows := totalRows + NumberOfRowsInSection(section);
      }
      assert RowsBefore(1) == |dynamicCategories|;
      assert RowsBefore(2) == |dynamicCategories| + 1;
      h := CellHeight * totalRows;
    }

    /**
     * The success closure of `viewDidLoad` given the loaded categories: every
     * category's settings are cut down to those the current user has, and the
     * categories left with settings become `dynamicCategories`.
     */
    method FilterCategories(categories: seq<DynamicSettingCategory>)
      modifies this, set c | c in categories
      ensures currentUser == old(currentUser)
      ensures forall k | 0 <= k < |categories| ::
                categories[k].settings == OwnedSettings(old(categories[k].settings), currentUser)
      ensures dynamicCategories == NonEmptyCategories(categories)
    {
      var kept := KeepOwnedCategories(categories, currentUser);
      dynamicCategories := kept;
    }
  }
}
