/**
 * src/stores/avatarStore.ts: cosmetic avatar state with partial merges,
 * equipment slots, and save/load through localStorage under the key 'avatar'.
 */
module AvatarStore {
  import opened Wrappers
  import opened AvatarTypes
  import LocalStorage

  const AvatarKey: string := "avatar"

  /** A `Partial<AvatarColors>`: `None` is a key left out. */
  datatype ColorsPatch = ColorsPatch(skin: Option<string>, hair: Option<string>, eyes: Option<string>)

  /** A `Partial<AvatarFeatures>`. */
  datatype FeaturesPatch = FeaturesPatch(hairStyle: Option<string>, faceStyle: Option<string>,
                                         bodyType: Option<string>)

  /** `{...colors, ...patch}`: given keys are overwritten, the others kept. */
  function MergeColors(c: Colors, p: ColorsPatch): (r: Colors)
    ensures p.skin.Some? ==> r.skin == p.skin.value
    ensures p.skin.None? ==> r.skin == c.skin
    ensures p.hair.Some? ==> r.hair == p.hair.value
    ensures p.hair.None? ==> r.hair == c.hair
    ensures p.eyes.Some? ==> r.eyes == p.eyes.value
    ensures p.eyes.None? ==> r.eyes == c.eyes
  {
    Colors(p.skin.UnwrapOr(c.skin), p.hair.UnwrapOr(c.hair), p.eyes.UnwrapOr(c.eyes))
  }

  /** `{...features, ...patch}`. */
  function MergeFeatures(f: Features, p: FeaturesPatch): (r: Features)
    ensures p.hairStyle.Some? ==> r.hairStyle == p.hairStyle.value
    ensures p.hairStyle.None? ==> r.hairStyle == f.hairStyle
    ensures p.faceStyle.Some? ==> r.faceStyle == p.faceStyle.value
    ensures p.faceStyle.None? ==> r.faceStyle == f.faceStyle
    ensures p.bodyType.Some? ==> r.bodyType == p.bodyType.value
    ensures p.bodyType.None? ==> r.bodyType == f.bodyType
  {
    Features(p.hairStyle.UnwrapOr(f.hairStyle), p.faceStyle.UnwrapOr(f.faceStyle), p.bodyType.UnwrapOr(f.bodyType))
  }

  /** Merging a patch a second time changes nothing more. */
  lemma MergesIdempotent(c: Colors, cp: ColorsPatch, f: Features, fp: FeaturesPatch)
    ensures MergeColors(MergeColors(c, cp), cp) == MergeColors(c, cp)
    ensures MergeFeatures(MergeFeatures(f, fp), fp) == MergeFeatures(f, fp)
  {
  }

  /** JavaScript truthiness of an optional item id: neither undefined nor ''. */
  predicate Truthy(itemId: Option<string>)
  {
    itemId.Some? && itemId.value != ""
  }

  /** equipItem: a truthy id fills the slot, a falsy one empties it; other slots stay. */
  function Equip(e: map<Slot, string>, slot: Slot, itemId: Option<string>): (r: map<Slot, string>)
    ensures Truthy(itemId) ==> slot in r && r[slot] == itemId.value
    ensures !Truthy(itemId) ==> slot !in r
    ensures forall s :: s != slot ==> (s in r <==> s in e) && (s in r ==> r[s] == e[s])
  {
    if Truthy(itemId) then e[slot := itemId.value] else e - {slot}
  }

  /** Equipping and then emptying a slot that was empty gives back the same equipment. */
  lemma EquipThenRemove(e: map<Slot, string>, slot: Slot, itemId: string)
    requires slot !in e
    ensures Equip(Equip(e, slot, Some(itemId)), slot, None) == e
  {
    assert Equip(Equip(e, slot, Some(itemId)), slot, None).Keys == e.Keys;
  }

  class Store {
    var avatarClass: AvatarClass
    var race: AvatarRace
    var gender: AvatarGender
    var colors: Colors
    var features: Features
    var equipment: map<Slot, string>
    var level: int
    const storage: LocalStorage.Storage

    /** The seven persisted fields. */
    function Snapshot(): AvatarSnapshot
      reads this
    {
      AvatarSnapshot(avatarClass, race, gender, colors, features, equipment, level)
    }

    /** The initial state of the store. */
    constructor (storage: LocalStorage.Storage)
      ensures this.storage == storage
      ensures Snapshot() == AvatarSnapshot(Warrior, Human, Other,
        Colors("#FFD1AA", "#4A3728", "#2E4B9C"), Features("short", "round", "athletic"), map[], 1)
    {
      this.storage := storage;
      avatarClass, race, gender := Warrior, Human, Other;
      colors := Colors("#FFD1AA", "#4A3728", "#2E4B9C");
      features := Features("short", "round", "athletic");
      equipment := map[];
      level := 1;
    }

    method UpdateColors(p: ColorsPatch)
      modifies this
      ensures Snapshot() == old(Snapshot()).(colors := MergeColors(old(colors), p))
    {
      colors := MergeColors(colors, p);
    }

    method UpdateFeatures(p: FeaturesPatch)
      modifies this
      ensures Snapshot() == old(Snapshot()).(features := MergeFeatures(old(features), p))
    {
      features := MergeFeatures(features, p);
    }

    method EquipItem(slot: Slot, itemId: Option<string>)
      modifies this
      ensures Snapshot() == old(Snapshot()).(equipment := Equip(old(equipment), slot, itemId))
    {
      equipment := Equip(equipment, slot, itemId);
    }

    method LevelUp()
      modifies this
      ensures level == old(level) + 1
      ensures Snapshot() == old(Snapshot()).(level := old(level) + 1)
    {
      level := level + 1;
    }

    method UpdateClass(newClass: AvatarClass)
      modifies this
      ensures Snapshot() == old(Snapshot()).(avatarClass := newClass)
    {
      avatarClass := newClass;
    }

    method UpdateRace(newRace: AvatarRace)
      modifies this
      ensures Snapshot() == old(Snapshot()).(race := newRace)
    {
      race := newRace;
    }

    method UpdateGender(newGender: AvatarGender)
      modifies this
      ensures Snapshot() == old(Snapshot()).(gender := newGender)
    {
      gender := newGender;
    }

    /** saveAvatar: write the seven fields under 'avatar'. */
    method SaveAvatar()
      modifies storage
      ensures storage.items == old(storage.items)[AvatarKey := LocalStorage.AvatarItem(Snapshot())]
    {
      storage.SetItem(AvatarKey, LocalStorage.AvatarItem(Snapshot()));
    }

    /**
     * loadAvatar: take over a saved avatar record; with nothing saved the
     * state stays.  A user record stored under the same key has none of the
     * avatar's fields, so merging it changes none of them.
     */
    method LoadAvatar()
      modifies this
      ensures AvatarKey in storage.items && storage.items[AvatarKey].AvatarItem? ==>
        Snapshot() == storage.items[AvatarKey].avatar
      ensures !(AvatarKey in storage.items && storage.items[AvatarKey].AvatarItem?) ==>
        Snapshot() == old(Snapshot())
    {
      var saved := storage.GetItem(AvatarKey);
      if saved.Some? && saved.value.AvatarItem? {
        var s := saved.value.avatar;
        avatarClass, race, gender := s.avatarClass, s.race, s.gender;
        colors, features, equipment, level := s.colors, s.features, s.equipment, s.level;
      }
    }
  }

  /** Saving, changing anything, and loading again restores the saved avatar. */
  method SaveChangeLoad(store: Store, newClass: AvatarClass)
    modifies store, store.storage
    ensures store.Snapshot() == old(store.Snapshot())
  {
    store.SaveAvatar();
    store.UpdateClass(newClass);
    store.LevelUp();
    store.LoadAvatar();
  }
}
