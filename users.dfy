/**
  The in-memory user list of the Day 3 authentication example and its
  `findOne`, which answers the first user whose username is exactly the one
  asked for. The list is never changed.
*/
module Users {
  import opened Wrappers

  datatype User = User(id: int, username: string, password: string)

  /** The fixed list, with its trailing spaces and its repeated ids. */
  const AllUsers: seq<User> := [
    User(1, "user1", "hello1232"),
    User(2, "user2 ", "hello132"),
    User(1, "user3 ", "hello12324"),
    User(1, "user4 ", "hello12")
  ]

  /** `users.find(i => i.username === username)` */
  function Find(users: seq<User>, username: string): (r: Option<User>)
    ensures r.None? <==> forall i :: 0 <= i < |users| ==> users[i].username != username
    ensures r.Some? ==> exists k :: 0 <= k < |users| && users[k] == r.value && r.value.username == username &&
                                    forall j :: 0 <= j < k ==> users[j].username != username
  {
    if users == [] then None
    else if users[0].username == username then Some(users[0])
    else
      var r := Find(users[1..], username);
      assert forall j :: 1 <= j < |users| ==> users[j] == users[1..][j - 1];
      if r.Some? then
        var k :| 0 <= k < |users[1..]| && users[1..][k] == r.value && r.value.username == username &&
                 forall j :: 0 <= j < k ==> users[1..][j].username != username;
        assert users[k + 1] == r.value && forall j :: 0 <= j < k + 1 ==> users[j].username != username;
        r
      else r
  }

  /** `UsersService.findOne` over the service's list. */
  function FindOne(username: string): (r: Option<User>)
    ensures r.Some? ==> r.value in AllUsers && r.value.username == username
    ensures r.None? <==> forall u :: u in AllUsers ==> u.username != username
  {
    Find(AllUsers, username)
  }

  /** The first match wins: a user is answered only if no earlier user has the name. */
  lemma {:induction false} FindIsFirst(users: seq<User>, username: string, k: nat)
    requires k < |users| && users[k].username == username
    requires forall j :: 0 <= j < k ==> users[j].username != username
    ensures Find(users, username) == Some(users[k])
  {
    if k > 0 {
      assert users[1..][k - 1] == users[k];
      FindIsFirst(users[1..], username, k - 1);
    }
  }

  /** Matching is exact: the stored `'user2 '` is not found without its trailing space. */
  lemma NoTrimming()
    ensures FindOne("user2").None?
    ensures FindOne("user2 ") == Some(AllUsers[1])
  {
    FindIsFirst(AllUsers, "user2 ", 1);
  }

  /** Ids do not identify users: three users share id 1, yet each is found by its own name. */
  lemma IdsAreNotKeys()
    ensures AllUsers[0].id == AllUsers[2].id == AllUsers[3].id == 1
    ensures FindOne("user3 ") == Some(AllUsers[2]) && FindOne("user4 ") == Some(AllUsers[3])
  {
    FindIsFirst(AllUsers, "user3 ", 2);
    FindIsFirst(AllUsers, "user4 ", 3);
  }
}
