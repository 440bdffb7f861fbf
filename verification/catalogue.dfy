/**
 * The fixed sound catalogue (`SOUNDS`) in catalogue order. Only the fields
 * the modelled rules read are kept: the identifier, the category and the title.
 * IPA characters are written as escapes: U+0251 ɑ, U+0254 ɔ, U+025B ɛ,
 * U+00F8 ø, U+0153 œ, U+0303 combining tilde.
 */
module Catalogue {
  import opened Wrappers

  datatype Sound = Sound(id: string, cat: string, title: string)

  const AnId: string := "an-\U{251}\U{303}"
  const OnId: string := "on-\U{254}\U{303}"
  const InId: string := "in-\U{25B}\U{303}"
  const EuId: string := "eu-\U{F8}\U{153}"
  const EntId: string := "ent-muet"
  const EuxId: string := "eux-eur"

  const Sounds: seq<Sound> := [
    Sound(AnId, "nasales", "AN / EN"),
    Sound(OnId, "nasales", "ON"),
    Sound(InId, "nasales", "IN / IM / AIN / EIN"),
    Sound(EuId, "midvowels", "EU / \U{152}U (peu vs peur)"),
    Sound(EntId, "endings", "-ENT (verbes -er)"),
    Sound(EuxId, "endings", "-EUX / -EUR / -EUSE")
  ]

  /** `SOUNDS.find(s => s.id === id)`: the first sound with exactly this identifier. */
  function Find(id: string): (r: Option<Sound>)
    ensures r.Some? <==> exists i :: 0 <= i < |Sounds| && Sounds[i].id == id
    ensures r.Some? ==> r.value in Sounds && r.value.id == id
  {
    FindFrom(Sounds, id)
  }

  function FindFrom(ss: seq<Sound>, id: string): (r: Option<Sound>)
    ensures r.Some? <==> exists i :: 0 <= i < |ss| && ss[i].id == id
    ensures r.Some? ==> r.value in ss && r.value.id == id
  {
    if ss == [] then None
    else if ss[0].id == id then Some(ss[0])
    else FindFrom(ss[1..], id)
  }
}
