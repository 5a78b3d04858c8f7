/**
 * The singers API (pages/api/singers/index.ts): GET lists the singers for the
 * client, POST validates a batch of new singers, checks every voice group
 * against the `VoiceGroup` enum and inserts the whole batch, or nothing.
 */
module SingersApi {
  import opened Seqs
  import opened JsonValues
  import opened VoiceGroups

  /**
   * The characters `String.prototype.trim` removes, as far as modelled: the
   * ASCII white space and line terminators, the no-break space and the byte
   * order mark.
   */
  predicate IsSpace(c: char) {
    c == ' ' || c == '\t' || c == '\n' || c == '\r' || c == '\U{000B}' || c == '\U{000C}' || c == '\U{00A0}' || c == '\U{FEFF}'
  }

  /** The number of white-space characters at the start. */
  function Leading(s: string): (n: nat)
    ensures n <= |s| && (forall j :: 0 <= j < n ==> IsSpace(s[j])) && (n < |s| ==> !IsSpace(s[n]))
  {
    if s != [] && IsSpace(s[0]) then 1 + Leading(s[1..]) else 0
  }

  /** The number of white-space characters at the end. */
  function Trailing(s: string): (n: nat)
    ensures n <= |s| && (forall j :: |s| - n <= j < |s| ==> IsSpace(s[j])) && (n < |s| ==> !IsSpace(s[|s| - n - 1]))
  {
    if s != [] && IsSpace(s[|s| - 1]) then 1 + Trailing(s[..|s| - 1]) else 0
  }

  /** `trim()` */
  function Trim(s: string): string {
    var a := Leading(s);
    if a == |s| then []
    else
      s[a..|s| - Trailing(s)]
  }

  /**
   * The trimmed string is the part of the input between white space at both
   * ends; it neither starts nor ends with white space, it is empty exactly
   * when the input is all white space, and trimming again changes nothing.
   */
  lemma TrimRules(s: string)
    ensures var r := Trim(s);
      && (r != [] ==> !IsSpace(r[0]) && !IsSpace(r[|r| - 1]))
      && (r == [] <==> forall j :: 0 <= j < |s| ==> IsSpace(s[j]))
      && (exists i, k :: 0 <= i <= k <= |s| && r == s[i..k]
            && (forall j :: 0 <= j < i ==> IsSpace(s[j])) && (forall j :: k <= j < |s| ==> IsSpace(s[j])))
      && Trim(r) == r
  {
    var r := Trim(s);
    var a := Leading(s);
    if a == |s| {
      assert r == s[a..a];
    } else {
      assert r == s[a..|s| - Trailing(s)];
    }
  }

  /** The validated form of one new singer (`NewSinger`), names already trimmed. */
  datatype NewSinger = NewSinger(firstName: string, lastName: string, voiceGroup: string)

  /** `NewSingerValidator.parse`: trimmed names must be non-empty; the voice group is any string. */
  function ValidateNewSinger(v: Json): (r: Option<NewSinger>)
    ensures r.Some? <==>
      && v.JObject?
      && HasString(v.fields, "firstName") && |Trim(v.fields["firstName"].s)| >= 1
      && HasString(v.fields, "lastName") && |Trim(v.fields["lastName"].s)| >= 1
      && HasString(v.fields, "voiceGroup")
    ensures r.Some? ==> r.value == NewSinger(Trim(v.fields["firstName"].s), Trim(v.fields["lastName"].s), v.fields["voiceGroup"].s)
  {
    if !v.JObject? then None
    else
      var o := v.fields;
      if !HasString(o, "firstName") || |Trim(o["firstName"].s)| < 1 then None
      else if !HasString(o, "lastName") || |Trim(o["lastName"].s)| < 1 then None
      else if !HasString(o, "voiceGroup") then None
      else Some(NewSinger(Trim(o["firstName"].s), Trim(o["lastName"].s), o["voiceGroup"].s))
  }

  /** The array validator: every element must validate, or the whole array is refused. */
  function ValidateAll(items: seq<Json>): (r: Option<seq<NewSinger>>)
    ensures r.Some? <==> forall i :: 0 <= i < |items| ==> ValidateNewSinger(items[i]).Some?
    ensures r.Some? ==> |r.value| == |items| && forall i :: 0 <= i < |items| ==> r.value[i] == ValidateNewSinger(items[i]).value
  {
    AllSome(items, ValidateNewSinger)
  }

  /** `JSON.parse` (`None` when it throws) followed by `NewSingersValidator.parse`. */
  function ValidateNewSingers(body: Option<Json>): Option<seq<NewSinger>> {
    if body.None? || !body.value.JArray? then None else ValidateAll(body.value.items)
  }

  /**
   * A body that is not a JSON array is refused; an array is accepted exactly
   * when each element validates, and gives the elements' results in order.
   */
  lemma ValidateNewSingersRules(body: Option<Json>)
    ensures (body.None? || !body.value.JArray?) ==> ValidateNewSingers(body).None?
    ensures body.Some? && body.value.JArray? ==>
      && (ValidateNewSingers(body).Some? <==> forall i :: 0 <= i < |body.value.items| ==> ValidateNewSinger(body.value.items[i]).Some?)
      && (ValidateNewSingers(body).Some? ==> |ValidateNewSingers(body).value| == |body.value.items|)
  {
  }

  /** Every voice group in the batch names an enum member. */
  predicate AllVoiceGroupsKnown(batch: seq<NewSinger>) {
    forall i :: 0 <= i < |batch| ==> FromName(batch[i].voiceGroup).Some?
  }

  /**
   * The `for ... of` loop that throws on the first singer whose voice group is
   * not an enum member; returns that voice group, or nothing when all are known.
   */
  method FindInvalidVoiceGroup(batch: seq<NewSinger>) returns (invalid: Option<string>)
    ensures invalid.None? <==> AllVoiceGroupsKnown(batch)
    ensures invalid.Some? ==>
      exists i :: (&& 0 <= i < |batch| && batch[i].voiceGroup == invalid.value
                   && FromName(invalid.value).None? && forall j :: 0 <= j < i ==> FromName(batch[j].voiceGroup).Some?)
  {
    var i := 0;
    while i < |batch|
      invariant 0 <= i <= |batch|
      invariant forall j :: 0 <= j < i ==> FromName(batch[j].voiceGroup).Some?
    {
      if FromName(batch[i].voiceGroup).None? {
        return Some(batch[i].voiceGroup);
      }
      i := i + 1;
    }
    return None;
  }

  /** A `Singer` row; the names may be null in the database. */
  datatype SingerRow = SingerRow(id: nat, firstName: Option<string>, lastName: Option<string>, voiceGroup: VoiceGroup)

  /** The `Singer` objects GET sends. */
  datatype ClientSinger = ClientSinger(firstName: string, lastName: string, voiceGroup: VoiceGroup, id: nat)

  /** `singersDB.map(...)`: null names become '-'. */
  function ToClient(rows: seq<SingerRow>): (r: seq<ClientSinger>)
    ensures |r| == |rows|
    ensures forall i :: 0 <= i < |rows| ==>
      && r[i].id == rows[i].id && r[i].voiceGroup == rows[i].voiceGroup
      && r[i].firstName == rows[i].firstName.GetOr("-") && r[i].lastName == rows[i].lastName.GetOr("-")
  {
    seq(|rows|, i requires 0 <= i < |rows| =>
      ClientSinger(rows[i].firstName.GetOr("-"), rows[i].lastName.GetOr("-"), rows[i].voiceGroup, rows[i].id))
  }

  /** The rows `createMany` adds for a checked batch; ids come from the database, modelled by a counter. */
  function Inserted(batch: seq<NewSinger>, firstId: nat): (r: seq<SingerRow>)
    requires AllVoiceGroupsKnown(batch)
    ensures |r| == |batch|
  {
    seq(|batch|, i requires 0 <= i < |batch| =>
      SingerRow(firstId + i, Some(batch[i].firstName), Some(batch[i].lastName), FromName(batch[i].voiceGroup).value))
  }

  /**
   * What GET sends for posted singers is what was posted: the trimmed names
   * and the named voice group, with fresh consecutive ids.
   */
  lemma PostThenGet(batch: seq<NewSinger>, firstId: nat)
    requires AllVoiceGroupsKnown(batch)
    ensures var sent := ToClient(Inserted(batch, firstId));
      && |sent| == |batch|
      && forall i :: 0 <= i < |batch| ==>
           && sent[i].firstName == batch[i].firstName && sent[i].lastName == batch[i].lastName
           && Name(sent[i].voiceGroup) == batch[i].voiceGroup && sent[i].id == firstId + i
  {
  }

  /** The `Singer` table. */
  class SingerTable {
    var rows: seq<SingerRow>
    var nextId: nat

    constructor (rows: seq<SingerRow>, nextId: nat)
      ensures this.rows == rows && this.nextId == nextId
    {
      this.rows := rows;
      this.nextId := nextId;
    }

    /**
     * `singerRequestHandler`: 401 without a session token; GET sends the
     * singers; POST inserts the batch when it validates and every voice group
     * is known, and otherwise inserts nothing and answers 400; other methods
     * get 400.
     */
    method SingerRequestHandler(hasToken: bool, httpMethod: string, body: Option<Json>)
      returns (status: int, sent: Option<seq<ClientSinger>>)
      modifies this
      ensures !hasToken ==> status == 401 && sent.None?
      ensures hasToken && httpMethod == "GET" ==> status == 200 && sent == Some(ToClient(old(rows)))
      ensures hasToken && httpMethod != "GET" ==> sent.None?
      ensures hasToken && httpMethod == "POST" ==>
        var batch := ValidateNewSingers(body);
        if batch.Some? && AllVoiceGroupsKnown(batch.value) then
          status == 200 && rows == old(rows) + Inserted(batch.value, old(nextId))
          && nextId == old(nextId) + |batch.value|
        else
          status == 400 && rows == old(rows) && nextId == old(nextId)
      ensures hasToken && httpMethod != "GET" && httpMethod != "POST" ==> status == 400
      ensures !(hasToken && httpMethod == "POST") ==> rows == old(rows) && nextId == old(nextId)
    {
      if !hasToken {
        return 401, None;
      }
      if httpMethod == "GET" {
        return 200, Some(ToClient(rows));
      } else if httpMethod == "POST" {
        var batch := ValidateNewSingers(body);
        if batch.None? {
          return 400, None;
        }
        var invalid := FindInvalidVoiceGroup(batch.value);
        if invalid.Some? {
          return 400, None;
        }
        rows := rows + Inserted(batch.value, nextId);
        nextId := nextId + |batch.value|;
        return 200, None;
      } else {
        return 400, None;
      }
    }
  }
}
