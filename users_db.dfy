/**
 * The user table of app/db/users.py and its search-credit accounting. Rows
 * are the store's dicts, kept by `user_id` (the upsert key of this model).
 * Whether a store call raises is an input (`readFails`, `writeFails`).
 */
module UsersDb {
  import opened Wrappers
  import opened JsonValues

  datatype User = User(userId: string, id: int, createdAt: string, searchCredits: int, isPremium: bool)

  const SignupCredits := 3

  /** `User(**row)`: `user_id`, `id` and `created_at` are required; credits default to 0, premium to False. */
  function ParseUser(d: Dict): Result<User, string> {
    if "user_id" !in d || !d["user_id"].JStr? then Err("user_id: invalid")
    else if "id" !in d || !d["id"].JInt? then Err("id: invalid")
    else if "created_at" !in d || !d["created_at"].JStr? then Err("created_at: invalid")
    else if "search_credits" in d && !d["search_credits"].JInt? then Err("search_credits: invalid")
    else if "is_premium" in d && !d["is_premium"].JBool? then Err("is_premium: invalid")
    else Ok(User(d["user_id"].s, d["id"].i, d["created_at"].s,
                 if "search_credits" in d then d["search_credits"].i else 0,
                 if "is_premium" in d then d["is_premium"].b else false))
  }

  /** A user row with only the required keys has no credits and is not premium. */
  lemma UserDefaults(userId: string, id: int, createdAt: string)
    ensures ParseUser(map["user_id" := JStr(userId), "id" := JInt(id), "created_at" := JStr(createdAt)])
            == Ok(User(userId, id, createdAt, 0, false))
  {
  }

  /** The dict `create_user` hands to the upsert: timestamps set, credits defaulted to 3 only when absent. */
  function SignupData(userData: Dict): (d: Dict)
    ensures "search_credits" in d && "created_at" in d && "updated_at" in d
    ensures "search_credits" in userData ==> d["search_credits"] == userData["search_credits"]
    ensures "search_credits" !in userData ==> d["search_credits"] == JInt(SignupCredits)
    ensures d["created_at"] == JStr("now()") && d["updated_at"] == JStr("now()")
    ensures forall k :: k in userData && k != "created_at" && k != "updated_at" ==> k in d && d[k] == userData[k]
  {
    var stamped := userData["created_at" := JStr("now()")]["updated_at" := JStr("now()")];
    if "search_credits" !in stamped then stamped["search_credits" := JInt(SignupCredits)] else stamped
  }

  datatype TableStep = TableStep(result: bool, rows: map<string, Dict>)

  /** `create_user` as a function of the table. An upsert overwrites the keys it names and keeps the rest. */
  function CreateUserSpec(rows: map<string, Dict>, userData: Dict, writeFails: bool): TableStep {
    var d := SignupData(userData);
    if writeFails || "user_id" !in d || !d["user_id"].JStr? then TableStep(false, rows)
    else
      var uid := d["user_id"].s;
      TableStep(true, rows[uid := if uid in rows then rows[uid] + d else d])
  }

  /** `get_user`: the validated row, or None when absent, invalid or the query raises. */
  function UserOf(rows: map<string, Dict>, userId: string, readFails: bool): Option<User> {
    if readFails || userId !in rows then None
    else match ParseUser(rows[userId])
      case Ok(u) => Some(u)
      case Err(_) => None
  }

  function DebitData(u: User): Dict {
    map["search_credits" := JInt(u.searchCredits - 1), "updated_at" := JStr("now()"), "is_premium" := JBool(u.isPremium)]
  }

  /** `is_search_permitted` as a function of the table. */
  function PermitSpec(rows: map<string, Dict>, userId: string, readFails: bool, writeFails: bool): TableStep {
    match UserOf(rows, userId, readFails)
    case None => TableStep(false, rows)
    case Some(u) =>
      if u.isPremium then TableStep(true, rows)
      else if u.searchCredits > 0 then
        if writeFails then TableStep(false, rows)
        else TableStep(true, rows[userId := rows[userId] + DebitData(u)])
      else TableStep(false, rows)
  }

  // ---------------------------------------------------------------------------
  // Properties

  /** Signing up sets three credits only when the caller supplied none, and keeps a supplied value. */
  lemma CreateUserCredits(rows: map<string, Dict>, userData: Dict, uid: string)
    requires "user_id" in userData && userData["user_id"] == JStr(uid)
    ensures var s := CreateUserSpec(rows, userData, false);
            && s.result && uid in s.rows
            && s.rows[uid]["search_credits"] == (if "search_credits" in userData then userData["search_credits"] else JInt(SignupCredits))
    ensures CreateUserSpec(rows, userData, true) == TableStep(false, rows)
  {
    var d := SignupData(userData);
    assert d["user_id"] == JStr(uid);
  }

  /** An unknown user is refused and nothing changes. */
  lemma UnknownUserRefused(rows: map<string, Dict>, userId: string, readFails: bool, writeFails: bool)
    requires UserOf(rows, userId, readFails).None?
    ensures PermitSpec(rows, userId, readFails, writeFails) == TableStep(false, rows)
  {
  }

  /** A premium user is permitted and keeps every credit. */
  lemma PremiumUserPermitted(rows: map<string, Dict>, userId: string, readFails: bool, writeFails: bool)
    requires UserOf(rows, userId, readFails).Some? && UserOf(rows, userId, readFails).value.isPremium
    ensures PermitSpec(rows, userId, readFails, writeFails) == TableStep(true, rows)
  {
  }

  /** A non-premium user with credits is permitted and, read back, has exactly one credit fewer; no other user changes. */
  lemma CreditDebited(rows: map<string, Dict>, userId: string)
    requires UserOf(rows, userId, false).Some?
    requires var u := UserOf(rows, userId, false).value; !u.isPremium && u.searchCredits > 0
    ensures var u := UserOf(rows, userId, false).value;
            var s := PermitSpec(rows, userId, false, false);
            && s.result
            && UserOf(s.rows, userId, false) == Some(u.(searchCredits := u.searchCredits - 1))
            && forall other :: other != userId ==> UserOf(s.rows, other, false) == UserOf(rows, other, false)
  {
    var u := UserOf(rows, userId, false).value;
    var merged := rows[userId] + DebitData(u);
    assert merged["search_credits"] == JInt(u.searchCredits - 1);
    assert merged["is_premium"] == JBool(false);
    assert ParseUser(merged) == Ok(u.(searchCredits := u.searchCredits - 1));
  }

  /** A non-premium user without credits is refused and unchanged, so this path never drives credits below zero. */
  lemma NoCreditsRefused(rows: map<string, Dict>, userId: string, readFails: bool, writeFails: bool)
    requires UserOf(rows, userId, readFails).Some?
    requires var u := UserOf(rows, userId, readFails).value; !u.isPremium && u.searchCredits <= 0
    ensures PermitSpec(rows, userId, readFails, writeFails) == TableStep(false, rows)
  {
  }

  /** Credits that start non-negative stay non-negative, whatever the store does. */
  lemma CreditsStayNonNegative(rows: map<string, Dict>, userId: string, readFails: bool, writeFails: bool)
    requires UserOf(rows, userId, false).Some? && UserOf(rows, userId, false).value.searchCredits >= 0
    ensures var after := UserOf(PermitSpec(rows, userId, readFails, writeFails).rows, userId, false);
            after.Some? && after.value.searchCredits >= 0
  {
    var s := PermitSpec(rows, userId, readFails, writeFails);
    if s.rows != rows {
      CreditDebited(rows, userId);
    }
  }

  /** A failed debit write refuses the search and leaves the table as it was. */
  lemma FailedDebitRefused(rows: map<string, Dict>, userId: string)
    ensures PermitSpec(rows, userId, false, true).rows == rows
    ensures PermitSpec(rows, userId, false, true).result ==> UserOf(rows, userId, false).value.isPremium
  {
  }

  class UserDB {
    var rows: map<string, Dict>

    constructor ()
      ensures rows == map[]
    {
      rows := map[];
    }

    method CreateUser(userData: Dict, writeFails: bool) returns (ok: bool)
      modifies this
      ensures TableStep(ok, rows) == CreateUserSpec(old(rows), userData, writeFails)
    {
      var data := userData;
      data := data["created_at" := JStr("now()")];
      data := data["updated_at" := JStr("now()")];
      if "search_credits" !in data {
        data := data["search_credits" := JInt(SignupCredits)];
      }
      if writeFails || "user_id" !in data || !data["user_id"].JStr? {
        return false;
      }
      var uid := data["user_id"].s;
      rows := rows[uid := if uid in rows then rows[uid] + data else data];
      return true;
    }

    method GetUser(userId: string, readFails: bool) returns (u: Option<User>)
      ensures u == UserOf(rows, userId, readFails)
    {
      if readFails || userId !in rows {
        return None;
      }
      var parsed := ParseUser(rows[userId]);
      if parsed.Err? {
        return None;
      }
      return Some(parsed.value);
    }

    method IsSearchPermitted(userId: string, readFails: bool, writeFails: bool) returns (permitted: bool)
      modifies this
      ensures TableStep(permitted, rows) == PermitSpec(old(rows), userId, readFails, writeFails)
    {
      var user := GetUser(userId, readFails);
      if user.None? {
        return false;
      }
      if user.value.isPremium {
        return true;
      }
      if user.value.searchCredits > 0 {
        if writeFails {
          return false;
        }
        rows := rows[userId := rows[userId] + DebitData(user.value)];
        return true;
      }
      return false;
    }
  }
}
