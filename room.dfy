/** The room model (BE/src/models/Room.ts): a row of the `rooms` table, the validation `Room.create`
    applies to its creation attributes, and the `members` column, a list of user ids stored as JSON
    text behind a getter and a setter. */
module Rooms {
  import opened Common
  import opened Json

  datatype RoomType = Public | Private

  /** The value of the `type` ENUM column. */
  function RoomTypeName(t: RoomType): string
  {
    match t
    case Public => "public"
    case Private => "private"
  }

  /** A `type` attribute is accepted exactly when it is one of the two ENUM values. */
  function ParseRoomType(s: Option<string>): (t: Option<RoomType>)
    ensures t.Some? <==> s == Some("public") || s == Some("private")
    ensures t.Some? ==> s == Some(RoomTypeName(t.value))
  {
    if s == Some("public") then Some(Public)
    else if s == Some("private") then Some(Private)
    else None
  }

  /** A stored row. `members` is the raw column: JSON text, or null since the column allows null.
      The timestamps and `lastActivity` are not modelled. */
  datatype Room = Room(id: string, name: string, roomType: RoomType, createdBy: string, members: Option<string>)

  /** The attributes handed to `Room.create`; an absent field is a null or missing attribute.
      `members` is optional: when given it goes through the setter, when left out the row keeps the
      column default. */
  datatype RoomInput = RoomInput(name: Option<string>, roomType: Option<string>, createdBy: Option<string>,
                                 members: Option<seq<string>>)

  /** The members a creation attribute set asks for: the list given, or none. */
  function GivenMembers(input: RoomInput): seq<string>
  {
    if input.members.None? then [] else input.members.value
  }

  /** The column default, stored as it is. */
  const DefaultMembers: string := "[]"

  /** The `members` getter: an absent or empty raw value reads as no members, anything else is
      parsed (`None` where `JSON.parse` throws or the text is not a list of strings). */
  function GetMembers(raw: Option<string>): (r: Option<seq<string>>)
    ensures !Present(raw) ==> r == Some([])
    ensures forall v :: raw == Some(Stringify(v)) ==> r == Some(v)
  {
    assert forall v :: raw == Some(Stringify(v)) ==> Parse(raw.value) == Some(v) by {
      forall v | raw == Some(Stringify(v)) ensures Parse(raw.value) == Some(v) {
        ParseStringify(v);
      }
    }
    if Present(raw) then Parse(raw.value) else Some([])
  }

  /** The `members` setter: `JSON.stringify(value || [])`, so null and undefined are stored as `[]`. */
  function SetMembers(value: Option<seq<string>>): (text: string)
    ensures |text| >= 2 && text[0] == '[' && text[|text| - 1] == ']'
    ensures text == DefaultMembers <==> value.None? || value.value == []
  {
    Stringify(if value.None? then [] else value.value)
  }

  /** The stored default reads as no members. */
  lemma DefaultMembersEmpty()
    ensures GetMembers(Some(DefaultMembers)) == Some([])
  {
    assert Parse("[]") == Some([]) by {
      ParseStringify([]);
      assert Stringify([]) == "[]";
    }
  }

  /** An absent or empty stored value reads as no members too. */
  lemma MissingMembersEmpty(raw: Option<string>)
    requires raw.None? || raw.value == ""
    ensures GetMembers(raw) == Some([])
  {
  }

  /** Writing null is writing the empty list, and both store the default text. */
  lemma SetNullStoresDefault()
    ensures SetMembers(None) == SetMembers(Some([])) == DefaultMembers
  {
    assert Stringify([]) == "[]";
  }

  /** Reading after writing gives back the list written (the empty list for null). */
  lemma {:induction false} MembersRoundTrip(value: Option<seq<string>>)
    ensures GetMembers(Some(SetMembers(value))) == Some(if value.None? then [] else value.value)
  {
    var v := if value.None? then [] else value.value;
    ParseStringify(v);
    assert Stringify(v)[0] == '[';
  }

  /** Different lists are stored as different texts. */
  lemma SetMembersInjective(v: seq<string>, w: seq<string>)
    requires SetMembers(Some(v)) == SetMembers(Some(w))
    ensures v == w
  {
    StringifyInjective(v, w);
  }

  /** `Room.create(data)`: `name`, `type` and `createdBy` must be present (`allowNull: false`) and
      `type` one of the ENUM values; the new row keeps those attributes, and its `members` read as
      the list given, or as no members when the list is left out. `id` is the generated UUID, or
      the one the attributes carry. */
  function NewRoom(input: RoomInput, id: string): (r: Option<Room>)
    ensures r.Some? <==> input.name.Some? && input.createdBy.Some? &&
                         (input.roomType == Some("public") || input.roomType == Some("private"))
    ensures r.Some? ==> && r.value.id == id
                        && Some(r.value.name) == input.name
                        && Some(RoomTypeName(r.value.roomType)) == input.roomType
                        && Some(r.value.createdBy) == input.createdBy
                        && GetMembers(r.value.members) == Some(GivenMembers(input))
  {
    var t := ParseRoomType(input.roomType);
    if input.name.None? || input.createdBy.None? || t.None? then None
    else
      DefaultMembersEmpty();
      MembersRoundTrip(input.members);
      var members := if input.members.None? then DefaultMembers else SetMembers(input.members);
      Some(Room(id, input.name.value, t.value, input.createdBy.value, Some(members)))
  }
}
