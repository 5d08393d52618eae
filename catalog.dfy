/**
 * The weights catalog (`weights_map`): weight id to entry, and the pure
 * meaning of the two ways it is overwritten.
 */
module Catalog {
  import opened Wrappers

  /** One catalog entry, as far as the downloader reads it. A field the JSON
      object lacks is `None`; `notar` holds the truthiness of the stored value. */
  datatype Entry = Entry(url: Option<string>, dest: Option<string>, notar: Option<bool>)

  type Weights = map<string, Entry>

  /** How `download` transfers a weight: extract an archive into the
      destination directory, or write one raw file. */
  datatype Mode = Archive | RawFile

  /** `weights_map` after every key of `custom` was assigned in turn: the
      whole entry of the payload wins, nothing is merged. */
  function Overlay(weights: Weights, custom: Weights): (r: Weights)
    ensures r.Keys == weights.Keys + custom.Keys
    ensures forall k :: k in custom ==> r[k] == custom[k]
    ensures forall k :: k in weights && k !in custom ==> r[k] == weights[k]
  {
    weights + custom
  }

  /** The payload with `notar` set to true in every entry. */
  function ForceRawFile(custom: Weights): (r: Weights)
    ensures r.Keys == custom.Keys
    ensures forall k :: k in r ==>
      r[k].url == custom[k].url && r[k].dest == custom[k].dest && r[k].notar == Some(true)
  {
    map k | k in custom :: custom[k].(notar := Some(true))
  }

  /** `weights_map` after `append_custom_models_from_string`. */
  function OverlayRawFile(weights: Weights, custom: Weights): (r: Weights)
    ensures r.Keys == weights.Keys + custom.Keys
    ensures forall k :: k in custom ==>
      r[k] == Entry(custom[k].url, custom[k].dest, Some(true))
    ensures forall k :: k in weights && k !in custom ==> r[k] == weights[k]
  {
    Overlay(weights, ForceRawFile(custom))
  }

  /** One more payload key forced to raw file is one more key of the
      overlay: the loop step of `append_custom_models_from_string`. */
  lemma OverlayRawFileStep(weights: Weights, part: Weights, key: string, e: Entry)
    ensures OverlayRawFile(weights, part)[key := e.(notar := Some(true))] == OverlayRawFile(weights, part[key := e])
  {
    assert ForceRawFile(part[key := e]) == ForceRawFile(part)[key := e.(notar := Some(true))];
  }

  /** The `tar` flag of `download`: raw file only when the id is catalogued
      and its `notar` is present and truthy; every lookup failure keeps the
      archive default. */
  function ModeOf(weights: Weights, id: string): (m: Mode)
    ensures m == RawFile <==> id in weights && weights[id].notar == Some(true)
    ensures id !in weights ==> m == Archive
  {
    if id in weights && weights[id].notar == Some(true) then RawFile else Archive
  }

  /** Appending is last-write-wins: a second payload hides the first on
      the keys they share. */
  lemma OverlayLastWriteWins(weights: Weights, first: Weights, second: Weights)
    ensures Overlay(Overlay(weights, first), second) == Overlay(weights, Overlay(first, second))
  {
  }
}
