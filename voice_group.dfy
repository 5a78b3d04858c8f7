/**
 * The `VoiceGroup` database enum (drizzle/schema.ts) and its value names.
 */
module VoiceGroups {
  import opened Seqs

  datatype VoiceGroup = S1 | S2 | S2_M | A1_M | A1 | A2 | T1 | T2 | B1 | B2 | D

  /** The enum values in declaration order, which is also the order of `Object.keys(VoiceGroup)`. */
  const AllVoiceGroups: seq<VoiceGroup> := [S1, S2, S2_M, A1_M, A1, A2, T1, T2, B1, B2, D]

  /** The name the database and the client use for a voice group. */
  function Name(g: VoiceGroup): string {
    match g
    case S1 => "S1"
    case S2 => "S2"
    case S2_M => "S2_M"
    case A1_M => "A1_M"
    case A1 => "A1"
    case A2 => "A2"
    case T1 => "T1"
    case T2 => "T2"
    case B1 => "B1"
    case B2 => "B2"
    case D => "D"
  }

  /** `VoiceGroup[name]`: the enum member with that name, if any. */
  function FromName(name: string): (g: Option<VoiceGroup>)
    ensures g.Some? ==> Name(g.value) == name
  {
    match name
    case "S1" => Some(S1)
    case "S2" => Some(S2)
    case "S2_M" => Some(S2_M)
    case "A1_M" => Some(A1_M)
    case "A1" => Some(A1)
    case "A2" => Some(A2)
    case "T1" => Some(T1)
    case "T2" => Some(T2)
    case "B1" => Some(B1)
    case "B2" => Some(B2)
    case "D" => Some(D)
    case _ => None
  }

  /** Names and members correspond one to one. */
  lemma NameRoundTrip(g: VoiceGroup, name: string)
    ensures FromName(Name(g)) == Some(g)
    ensures FromName(name).Some? <==> exists h :: Name(h) == name
  {
    if exists h :: Name(h) == name {
      var h :| Name(h) == name;
      match h
      case S1 => case S2 => case S2_M => case A1_M => case A1 => case A2 =>
      case T1 => case T2 => case B1 => case B2 => case D =>
    }
  }

  /** The list names every member exactly once. */
  lemma AllVoiceGroupsListed(g: VoiceGroup)
    ensures g in AllVoiceGroups
    ensures forall i, j :: 0 <= i < j < |AllVoiceGroups| ==> AllVoiceGroups[i] != AllVoiceGroups[j]
  {
  }
}
