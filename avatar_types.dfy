/** The avatar records of src/types/avatar.ts. */
module AvatarTypes {

  datatype AvatarClass = Warrior | Mage | Rogue | Cleric
  datatype AvatarRace = Human | Elf | Dwarf | Orc
  datatype AvatarGender = Male | Female | Other

  datatype Colors = Colors(skin: string, hair: string, eyes: string)
  datatype Features = Features(hairStyle: string, faceStyle: string, bodyType: string)

  /** The keys of Equipment; an absent key is an empty slot. */
  datatype Slot = Head | Body | Weapon | Shield | Accessory

  /** The seven fields of AvatarState, which is also what saveAvatar persists. */
  datatype AvatarSnapshot = AvatarSnapshot(avatarClass: AvatarClass, race: AvatarRace, gender: AvatarGender,
                                           colors: Colors, features: Features,
                                           equipment: map<Slot, string>, level: int)
}
