/** The complex-state component of src/PerformanceProblems.jsx: a nested state
    tree that `updateNestedState` replaces by a deep copy in which one field,
    chosen by a path name, has changed. */
module ComplexState {
  import opened Text

  /** A value that survives `JSON.parse(JSON.stringify(...))`. Numbers are taken
      to be integers: the component only stores ids and a version counter. */
  datatype Json =
    | Null
    | Bool(b: bool)
    | Num(n: int)
    | Str(s: string)
    | Arr(elems: seq<Json>)
    | Obj(fields: map<string, Json>)

  /** The fields `updateNestedState` can write hold whatever value it is given,
      so they have type `Json`; the others keep the type of their initial value. */
  datatype Notifications = Notifications(email: Json, push: bool, sms: bool)
  datatype Settings = Settings(theme: Json, language: string, notifications: Notifications)
  datatype Metadata = Metadata(lastUpdated: Json, version: int, settings: Settings)
  datatype State = State(
    users: seq<Json>,
    posts: seq<Json>,
    comments: seq<Json>,
    likes: map<string, Json>,
    shares: map<string, Json>,
    metadata: Metadata)

  /** The value `useState` starts from. */
  function InitialState(): (s: State)
    ensures s.users == [] && s.posts == [] && s.comments == [] && s.likes == map[] && s.shares == map[]
    ensures s.metadata.lastUpdated == Null && s.metadata.version == 1
    ensures s.metadata.settings.theme == Str("light") && s.metadata.settings.language == "zh"
    ensures s.metadata.settings.notifications == Notifications(Bool(true), true, false)
  {
    State([], [], [], map[], map[],
          Metadata(Null, 1, Settings(Str("light"), "zh", Notifications(Bool(true), true, false))))
  }

  /** `a` and `b` hold the same users, posts, comments, likes and shares. */
  predicate SameCollections(a: State, b: State) {
    a.users == b.users && a.posts == b.posts && a.comments == b.comments &&
    a.likes == b.likes && a.shares == b.shares
  }

  /** `a` and `b` have the same last-update stamp and version. */
  predicate SameHistory(a: State, b: State) {
    a.metadata.lastUpdated == b.metadata.lastUpdated && a.metadata.version == b.metadata.version
  }

  /** The paths `updateNestedState` acts on. */
  predicate KnownPath(path: string) {
    path == "theme" || path == "email" || path == "addUser"
  }

  /** The updater `updateNestedState(path, value)` hands to `setComplexState`:
      the previous state, copied, with the field `path` names changed. `now` is
      the text `new Date().toISOString()` returns inside the updater. The deep
      copy of a value is the value itself, so no copy appears here. */
  function UpdateNestedState(prev: State, path: string, value: Json, now: string): (next: State)
    ensures path == "theme" ==>
      next.metadata.settings.theme == value &&
      next.metadata.settings.language == prev.metadata.settings.language &&
      next.metadata.settings.notifications == prev.metadata.settings.notifications &&
      SameCollections(prev, next) && SameHistory(prev, next)
    ensures path == "email" ==>
      next.metadata.settings.notifications.email == value &&
      next.metadata.settings.notifications.push == prev.metadata.settings.notifications.push &&
      next.metadata.settings.notifications.sms == prev.metadata.settings.notifications.sms &&
      next.metadata.settings.theme == prev.metadata.settings.theme &&
      next.metadata.settings.language == prev.metadata.settings.language &&
      SameCollections(prev, next) && SameHistory(prev, next)
    ensures path == "addUser" ==>
      next.users == prev.users + [value] &&
      next.metadata.version == prev.metadata.version + 1 &&
      next.metadata.lastUpdated == Str(now) &&
      next.metadata.settings == prev.metadata.settings &&
      next.posts == prev.posts && next.comments == prev.comments &&
      next.likes == prev.likes && next.shares == prev.shares
    ensures !KnownPath(path) ==> next == prev
  {
    var meta := prev.metadata;
    var settings := meta.settings;
    if path == "theme" then
      prev.(metadata := meta.(settings := settings.(theme := value)))
    else if path == "email" then
      prev.(metadata := meta.(settings := settings.(notifications := settings.notifications.(email := value))))
    else if path == "addUser" then
      prev.(users := prev.users + [value], metadata := meta.(lastUpdated := Str(now), version := meta.version + 1))
    else
      prev
  }

  /** Writing the old theme back after a theme update gives back the old state
      exactly: a theme update changes nothing but the theme. */
  lemma ThemeUpdateUndone(s: State, value: Json, now1: string, now2: string)
    ensures UpdateNestedState(UpdateNestedState(s, "theme", value, now1), "theme", s.metadata.settings.theme, now2) == s
  {
    var mid := UpdateNestedState(s, "theme", value, now1);
    var back := UpdateNestedState(mid, "theme", s.metadata.settings.theme, now2);
    assert back.metadata.settings == s.metadata.settings;
    assert back.metadata == s.metadata;
  }

  /** Writing the old e-mail flag back after an e-mail update gives back the old
      state exactly: an e-mail update changes nothing but that flag. */
  lemma EmailUpdateUndone(s: State, value: Json, now1: string, now2: string)
    ensures UpdateNestedState(UpdateNestedState(s, "email", value, now1), "email", s.metadata.settings.notifications.email, now2) == s
  {
    var mid := UpdateNestedState(s, "email", value, now1);
    var back := UpdateNestedState(mid, "email", s.metadata.settings.notifications.email, now2);
    assert back.metadata.settings.notifications == s.metadata.settings.notifications;
    assert back.metadata.settings == s.metadata.settings;
    assert back.metadata == s.metadata;
  }

  /** A theme update and an e-mail update touch different fields, so their order
      does not matter. */
  lemma ThemeAndEmailCommute(s: State, theme: Json, email: Json, now1: string, now2: string)
    ensures UpdateNestedState(UpdateNestedState(s, "theme", theme, now1), "email", email, now2) ==
            UpdateNestedState(UpdateNestedState(s, "email", email, now2), "theme", theme, now1)
  {
    var a := UpdateNestedState(UpdateNestedState(s, "theme", theme, now1), "email", email, now2);
    var b := UpdateNestedState(UpdateNestedState(s, "email", email, now2), "theme", theme, now1);
    assert a.metadata.settings == b.metadata.settings;
    assert a.metadata == b.metadata;
  }

  /** The state after `addUser` with each value in turn, `stamps[k]` being the
      clock text for the `k`-th. */
  function AddUsers(s: State, users: seq<Json>, stamps: seq<string>): State
    requires |stamps| == |users|
    decreases |users|
  {
    if users == [] then s else AddUsers(UpdateNestedState(s, "addUser", users[0], stamps[0]), users[1..], stamps[1..])
  }

  /** Adding users one after another appends them in order, raises the version by
      their number, stamps the last time, and keeps the settings. */
  lemma {:induction false} AddUsersEffect(s: State, users: seq<Json>, stamps: seq<string>)
    requires |stamps| == |users|
    ensures AddUsers(s, users, stamps).users == s.users + users
    ensures AddUsers(s, users, stamps).metadata.version == s.metadata.version + |users|
    ensures AddUsers(s, users, stamps).metadata.settings == s.metadata.settings
    ensures users != [] ==> AddUsers(s, users, stamps).metadata.lastUpdated == Str(stamps[|stamps| - 1])
    ensures users == [] ==> AddUsers(s, users, stamps) == s
    decreases |users|
  {
    if users != [] {
      var next := UpdateNestedState(s, "addUser", users[0], stamps[0]);
      AddUsersEffect(next, users[1..], stamps[1..]);
      assert s.users + users == (s.users + [users[0]]) + users[1..];
      if users[1..] == [] {
        assert AddUsers(next, users[1..], stamps[1..]) == next;
      }
    }
  }

  /** The theme the toggle button asks for: "dark" after "light", and "light"
      after anything else. */
  function ToggledTheme(theme: Json): (r: Json)
    ensures r == Str("light") || r == Str("dark")
    ensures r == Str("dark") <==> theme == Str("light")
  {
    if theme == Str("light") then Str("dark") else Str("light")
  }

  /** The toggle button: `updateNestedState('theme', ...)` with the toggled theme.
      A theme update never reads the clock, so no stamp is passed on. */
  function ToggleTheme(s: State): (next: State)
    ensures next.metadata.settings.theme == ToggledTheme(s.metadata.settings.theme)
  {
    UpdateNestedState(s, "theme", ToggledTheme(s.metadata.settings.theme), "")
  }

  /** From "light" or "dark", two toggles give back the whole state. */
  lemma ToggleThemeTwice(s: State)
    requires s.metadata.settings.theme == Str("light") || s.metadata.settings.theme == Str("dark")
    ensures ToggleTheme(ToggleTheme(s)) == s
  {
    var mid := ToggleTheme(s);
    assert ToggledTheme(mid.metadata.settings.theme) == s.metadata.settings.theme;
    ThemeUpdateUndone(s, ToggledTheme(s.metadata.settings.theme), "", "");
  }

  /** From any other theme, the first toggle gives "light" and two toggles give "dark". */
  lemma ToggleThemeFromOther(s: State)
    requires s.metadata.settings.theme != Str("light") && s.metadata.settings.theme != Str("dark")
    ensures ToggleTheme(s).metadata.settings.theme == Str("light")
    ensures ToggleTheme(ToggleTheme(s)).metadata.settings.theme == Str("dark")
  {
  }

  /** The post `Array.from`'s callback builds at index `i`, with `now` read from the clock. */
  function RandomPost(i: nat, now: int): (post: Json)
    ensures post.Obj? && post.fields.Keys == {"id", "title", "content"}
    ensures post.fields["id"] == Num(now + i)
  {
    Obj(map[
      "id" := Num(now + i),
      "title" := Str("Post " + NatToString(i)),
      "content" := Str(Repeat("Content for post " + NatToString(i), 10))])
  }

  /** The user `addRandomUser` builds: `now` is the clock reading for its id,
      `nameDraw` and `emailDraw` the two `Math.floor(Math.random() * 1000)` results,
      `postCount` the `Math.floor(Math.random() * 10)` result, and `postClock(i)`
      the clock reading for post `i`. */
  function RandomUser(now: int, nameDraw: nat, emailDraw: nat, postCount: nat, postClock: nat -> int): (user: Json)
    ensures user.Obj? && user.fields.Keys == {"id", "name", "email", "posts"}
    ensures user.fields["id"] == Num(now)
    ensures user.fields["posts"].Arr? && |user.fields["posts"].elems| == postCount
  {
    Obj(map[
      "id" := Num(now),
      "name" := Str("User " + NatToString(nameDraw)),
      "email" := Str("user" + NatToString(emailDraw) + "@example.com"),
      "posts" := Arr(seq(postCount, i requires 0 <= i => RandomPost(i, postClock(i))))])
  }

  /** `addRandomUser`: one more user at the end, version up by one, stamped `stamp`. */
  function AddRandomUser(s: State, now: int, nameDraw: nat, emailDraw: nat, postCount: nat,
                         postClock: nat -> int, stamp: string): (next: State)
    ensures |next.users| == |s.users| + 1 && next.users[..|s.users|] == s.users
    ensures next.users[|s.users|] == RandomUser(now, nameDraw, emailDraw, postCount, postClock)
    ensures next.metadata.version == s.metadata.version + 1
    ensures next.metadata.lastUpdated == Str(stamp)
    ensures next.metadata.settings == s.metadata.settings
  {
    UpdateNestedState(s, "addUser", RandomUser(now, nameDraw, emailDraw, postCount, postClock), stamp)
  }
}
