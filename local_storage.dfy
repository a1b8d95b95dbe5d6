/**
 * The browser's localStorage as the stores use it: one string-keyed map
 * shared by the user store (keyed by email) and the avatar store (key
 * 'avatar').  JSON.stringify and JSON.parse are taken as the identity, so an
 * item is the record that was stored.
 */
module LocalStorage {
  import opened Wrappers
  import opened CharacterTypes
  import opened AvatarTypes

  datatype Item = UserItem(user: User) | AvatarItem(avatar: AvatarSnapshot)

  class Storage {
    var items: map<string, Item>

    constructor ()
      ensures items == map[]
    {
      items := map[];
    }

    /** getItem: the stored item, or null. */
    method GetItem(key: string) returns (r: Option<Item>)
      ensures key in items <==> r.Some?
      ensures r.Some? ==> r.value == items[key]
    {
      r := if key in items then Some(items[key]) else None;
    }

    /** setItem: last write wins. */
    method SetItem(key: string, value: Item)
      modifies this
      ensures items == old(items)[key := value]
    {
      items := items[key := value];
    }
  }
}
