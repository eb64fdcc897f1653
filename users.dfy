/** The user services of resources/user/services.ts over the `user_db` store:
    `["users_by_id", id] → record` and the email index
    `["users_by_email", email] → ["users_by_id", id]`. */
module Users {
  import opened OptionMonad
  import opened JsValues
  import opened Http

  /** `UserSchema` of resources/user/types.ts: the fields a client submits. */
  datatype UserSchema = UserSchema(
    name: string,
    email: string,
    password: string,
    address_line: string,
    city: string,
    province: string,
    postal_code: string,
    country: string)

  /** The schema as a JavaScript object. */
  function SchemaFields(schema: UserSchema): map<string, Value> {
    map["name" := Str(schema.name),
        "email" := Str(schema.email),
        "password" := Str(schema.password),
        "address_line" := Str(schema.address_line),
        "city" := Str(schema.city),
        "province" := Str(schema.province),
        "postal_code" := Str(schema.postal_code),
        "country" := Str(schema.country)]
  }

  /** The `UserRecord` built by `createUserService`: `id`, `created_at` and
      `updated_at`, then the schema spread over them. */
  function NewUserRecord(schema: UserSchema, id: string, now: string): (record: Value)
    ensures record.Obj?
    ensures record.fields.Keys == SchemaFields(schema).Keys + {"id", "created_at", "updated_at"}
    ensures forall key :: key in SchemaFields(schema) ==> record.fields[key] == SchemaFields(schema)[key]
    ensures FieldOf(record, "id") == Some(Str(id))
    ensures FieldOf(record, "email") == Some(Str(schema.email))
    ensures record.fields["created_at"] == Str(now) && record.fields["updated_at"] == Str(now)
  {
    Obj(map["id" := Str(id), "created_at" := Str(now), "updated_at" := Str(now)] + SchemaFields(schema))
  }

  /** The record `updateUserService` writes:
      `{...stored, [fieldToUpdate]: valueToUpdate, updated_at: now}`. */
  function UpdatedUserRecord(stored: Value, fieldToUpdate: string, valueToUpdate: string, now: string): (record: Value)
    ensures record.Obj?
    ensures record.fields.Keys == Spread(stored).Keys + {fieldToUpdate, "updated_at"}
    ensures record.fields["updated_at"] == Str(now)
    ensures fieldToUpdate != "updated_at" ==> record.fields[fieldToUpdate] == Str(valueToUpdate)
    ensures forall key :: key in Spread(stored) && key != fieldToUpdate && key != "updated_at" ==>
              record.fields[key] == Spread(stored)[key]
  {
    Obj(Spread(stored)[fieldToUpdate := Str(valueToUpdate)]["updated_at" := Str(now)])
  }

  /** What `updateUserService` writes over a freshly created user, whose stored
      value is the list `[record]`: the record ends up under the property `"0"`
      beside the updated field and `updated_at`. */
  lemma UpdateOfRegistered(record: Value, fieldToUpdate: string, valueToUpdate: string, now: string)
    requires fieldToUpdate != "updated_at" && fieldToUpdate != "0"
    ensures UpdatedUserRecord(Arr([record]), fieldToUpdate, valueToUpdate, now)
            == Obj(map["0" := record, fieldToUpdate := Str(valueToUpdate), "updated_at" := Str(now)])
  {
    SpreadSingleton(record);
  }

  /** The `user_db` Deno KV database. */
  class UserDb {
    /** `["users_by_id", id] → stored value`. */
    var usersById: map<string, Value>
    /** `["users_by_email", email] → ["users_by_id", id]`, kept as the `id`
        of that primary key. */
    var usersByEmail: map<string, string>

    constructor ()
      ensures usersById == map[] && usersByEmail == map[]
    {
      usersById := map[];
      usersByEmail := map[];
    }

    /** Every stored user is reachable from some email. */
    ghost predicate Valid()
      reads this
    {
      usersById.Keys <= usersByEmail.Values
    }

    /** In a valid table every stored user is found by an email lookup. */
    lemma StoredUserReachable(id: string)
      requires Valid()
      requires id in usersById
      ensures exists email :: RecordByEmail(email) == Some(usersById[id])
    {
      assert id in usersByEmail.Values;
      var email :| email in usersByEmail && usersByEmail[email] == id;
      assert RecordByEmail(email) == Some(usersById[id]);
    }

    /** What an email lookup finds: the index entry, then the stored value
        under the primary key it holds. */
    ghost function RecordByEmail(email: string): Option<Value>
      reads this
    {
      if email in usersByEmail && usersByEmail[email] in usersById
      then Some(usersById[usersByEmail[email]])
      else None
    }

    /** `createUserService(userSchema)`, with `ulid()` as `newId` and the
        ISO timestamp as `now`. The stored value is the one-element list
        `[userRecord]`, while the caller gets the bare record. */
    method CreateUser(userSchema: UserSchema, newId: string, now: string) returns (r: ServiceResult<Value>)
      modifies this
      ensures userSchema.email in old(usersByEmail) ==>
                r == Err(HttpError("User already exists", 400, false))
                && usersById == old(usersById) && usersByEmail == old(usersByEmail)
      ensures userSchema.email !in old(usersByEmail) ==>
                r == Ok(HttpSuccess(NewUserRecord(userSchema, newId, now), "User created", 201, false))
                && usersById == old(usersById)[newId := Arr([NewUserRecord(userSchema, newId, now)])]
                && usersByEmail == old(usersByEmail)[userSchema.email := newId]
      ensures forall email :: email in old(usersByEmail) ==>
                email in usersByEmail && usersByEmail[email] == old(usersByEmail)[email]
      ensures old(Valid()) ==> Valid()
    {
      if userSchema.email in usersByEmail {
        return Err(HttpError("User already exists", 400, false));
      }
      var userRecord := NewUserRecord(userSchema, newId, now);
      ghost var oldIndex := usersByEmail;
      usersById := usersById[newId := Arr([userRecord])];
      usersByEmail := usersByEmail[userSchema.email := newId];
      assert usersByEmail[userSchema.email] == newId;
      forall id | id in oldIndex.Values
        ensures id in usersByEmail.Values
      {
        var email :| email in oldIndex && oldIndex[email] == id;
        assert usersByEmail[email] == id;
      }
      return Ok(HttpSuccess(userRecord, "User created", 201, false));
    }

    /** `getUserByIdService(id)`: reads only. */
    method GetUserById(id: string) returns (r: ServiceResult<Value>)
      ensures id !in usersById ==> r == Err(HttpError("User not found", 404, false))
      ensures id in usersById ==> r == Ok(HttpSuccess(usersById[id], "User found", 200, false))
    {
      if id !in usersById {
        return Err(HttpError("User not found", 404, false));
      }
      return Ok(HttpSuccess(usersById[id], "User found", 200, false));
    }

    /** `getUserByEmailService(email)`: reads only; a missing index entry and
        an index entry whose record is gone are both 404. */
    method GetUserByEmail(email: string) returns (r: ServiceResult<Value>)
      ensures r.Err? <==> RecordByEmail(email).None?
      ensures r.Err? ==> r.error == HttpError("User not found", 404, false)
      ensures r.Ok? ==> r.success == HttpSuccess(RecordByEmail(email).value, "User found", 200, false)
    {
      if email !in usersByEmail {
        return Err(HttpError("User not found", 404, false));
      }
      var primaryKey := usersByEmail[email];
      if primaryKey !in usersById {
        return Err(HttpError("User not found", 404, false));
      }
      return Ok(HttpSuccess(usersById[primaryKey], "User found", 200, false));
    }

    /** `updateUserService({fieldToUpdate, userId, valueToUpdate})`. */
    method UpdateUser(fieldToUpdate: string, userId: string, valueToUpdate: string, now: string)
      returns (r: ServiceResult<Value>)
      modifies this
      ensures userId !in old(usersById) ==>
                r == Err(HttpError("User not found", 404, false)) && usersById == old(usersById)
      ensures userId in old(usersById) ==>
                var updated := UpdatedUserRecord(old(usersById)[userId], fieldToUpdate, valueToUpdate, now);
                r == Ok(HttpSuccess(updated, "User updated", 200, false))
                && usersById == old(usersById)[userId := updated]
      ensures usersByEmail == old(usersByEmail)
      ensures old(Valid()) ==> Valid()
    {
      if userId !in usersById {
        return Err(HttpError("User not found", 404, false));
      }
      var updatedUserRecord := UpdatedUserRecord(usersById[userId], fieldToUpdate, valueToUpdate, now);
      usersById := usersById[userId := updatedUserRecord];
      return Ok(HttpSuccess(updatedUserRecord, "User updated", 200, false));
    }

    /** `deleteUserService(id)`: removes the primary key only; the email
        index keeps its entry. */
    method DeleteUser(id: string) returns (r: ServiceResult<bool>)
      modifies this
      ensures id !in old(usersById) ==>
                r == Err(HttpError("User not found", 404, false)) && usersById == old(usersById)
      ensures id in old(usersById) ==>
                r == Ok(HttpSuccess(true, "User deleted", 200, false))
                && usersById == old(usersById) - {id}
      ensures usersByEmail == old(usersByEmail)
      ensures old(Valid()) ==> Valid()
    {
      if id !in usersById {
        return Err(HttpError("User not found", 404, false));
      }
      usersById := usersById - {id};
      return Ok(HttpSuccess(true, "User deleted", 200, false));
    }
  }
}
