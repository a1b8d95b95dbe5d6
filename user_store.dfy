/**
 * src/stores/userStore.ts: sign-up, log-in and log-out against
 * localStorage, and attaching a freshly created character to the user.
 */
module UserStore {
  import opened Wrappers
  import opened CharacterTypes
  import LocalStorage

  /**
   * createInitialCharacter: a level-1 character with the quiz's stats,
   * 50/50 health, 30/30 mana and no tasks.  `Date.now().toString()` is the
   * parameter `now`.
   */
  function CreateInitialCharacter(stats: Stats, now: string): (c: Character)
    ensures c.id == now && c.name == "Adventurer" && c.race == "Human" && c.characterClass == "Fighter"
    ensures c.level == 1 && c.experience == 0 && c.experienceToNextLevel == 100
    ensures c.health == Resource(50, 50) && c.mana == Resource(30, 30)
    ensures c.stats == stats && c.battleTokens == 0
    ensures c.habits == [] && c.dailies == [] && c.todos == []
    ensures WellFormed(c)
  {
    Character(now, "Adventurer", "Human", "Fighter", 1, 0, 100,
              Resource(50, 50), Resource(30, 30), stats, 0, [], [], [])
  }

  class Store {
    var user: Option<User>
    var isAuthenticated: bool
    const storage: LocalStorage.Storage

    constructor (storage: LocalStorage.Storage)
      ensures this.storage == storage && user == None && !isAuthenticated
    {
      this.storage := storage;
      user := None;
      isAuthenticated := false;
    }

    /** signup: refuse a taken email; otherwise store the new user and log in. */
    method Signup(email: string, password: string, username: string) returns (ok: bool)
      modifies this, storage
      ensures ok <==> email !in old(storage.items)
      ensures !ok ==> storage.items == old(storage.items) && user == old(user) &&
                      isAuthenticated == old(isAuthenticated)
      ensures ok ==>
        var newUser := User(email, username, password, None);
        && storage.items == old(storage.items)[email := LocalStorage.UserItem(newUser)]
        && user == Some(newUser) && isAuthenticated
    {
      var existing := storage.GetItem(email);
      if existing.Some? {
        return false;
      }
      var newUser := User(email, username, password, None);
      storage.SetItem(email, LocalStorage.UserItem(newUser));
      user := Some(newUser);
      isAuthenticated := true;
      return true;
    }

    /**
     * login: succeed only when a user record is stored under the email with
     * the same password.  Anything else stored under that key (the avatar
     * record) has no password and never matches.
     */
    method Login(email: string, password: string) returns (ok: bool)
      modifies this
      ensures ok <==> email in storage.items && storage.items[email].UserItem? &&
                      storage.items[email].user.password == password
      ensures ok ==> user == Some(storage.items[email].user) && isAuthenticated
      ensures !ok ==> user == old(user) && isAuthenticated == old(isAuthenticated)
    {
      var stored := storage.GetItem(email);
      if stored.None? {
        return false;
      }
      match stored.value
      case AvatarItem(_) =>
        return false;
      case UserItem(u) =>
        if u.password != password {
          return false;
        }
        user := Some(u);
        isAuthenticated := true;
        return true;
    }

    /** logout: forget the user; localStorage keeps the record. */
    method Logout()
      modifies this
      ensures user == None && !isAuthenticated
    {
      user := None;
      isAuthenticated := false;
    }

    /** setCharacter: attach a new character to the logged-in user and persist the user; nothing without one. */
    method SetCharacter(stats: Stats, now: string)
      modifies this, storage
      ensures old(user).None? ==> user == None && storage.items == old(storage.items)
      ensures old(user).Some? ==>
        var updated := old(user).value.(character := Some(CreateInitialCharacter(stats, now)));
        && user == Some(updated)
        && storage.items == old(storage.items)[updated.email := LocalStorage.UserItem(updated)]
      ensures isAuthenticated == old(isAuthenticated)
    {
      if user.None? {
        return;
      }
      var updated := user.value.(character := Some(CreateInitialCharacter(stats, now)));
      storage.SetItem(updated.email, LocalStorage.UserItem(updated));
      user := Some(updated);
    }
  }

  /** A sign-up with a new email followed by a log-in with the same password succeeds. */
  method SignupThenLogin(store: Store, email: string, password: string, username: string)
    returns (signedUp: bool, loggedIn: bool)
    requires email !in store.storage.items
    modifies store, store.storage
    ensures signedUp && loggedIn
    ensures store.user == Some(User(email, username, password, None)) && store.isAuthenticated
  {
    signedUp := store.Signup(email, password, username);
    store.Logout();
    loggedIn := store.Login(email, password);
  }
}
