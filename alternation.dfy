/**
 * Everything that a chunk's position in the story decides: the speaker
 * label, whether the bubble is drawn as "sent", and the bubble colour.
 */
module Alternation {

  /** The two speaker labels handed out in turn. */
  const CharacterNames: seq<string> := ["Alice", "Bob"]

  /** Bubble colour of a "sent" chunk (even index). */
  const SentColor: string := "#d4f1f4"

  /** Bubble colour of a "received" chunk (odd index). */
  const ReceivedColor: string := "#f1f1f1"

  /** `character_names[i % len(character_names)]`. */
  function Character(i: nat): (name: string)
    ensures name == "Alice" <==> i % 2 == 0
    ensures name == "Bob" <==> i % 2 == 1
    ensures name in CharacterNames
  {
    CharacterNames[i % |CharacterNames|]
  }

  /** `is_sent = i % 2 == 0`: the chunks spoken by the first character. */
  function IsSent(i: nat): (sent: bool)
    ensures sent <==> Character(i) == CharacterNames[0]
  {
    i % 2 == 0
  }

  /** `"#d4f1f4" if is_sent else "#f1f1f1"`. */
  function BubbleColor(isSent: bool): (color: string)
    ensures color == SentColor <==> isSent
    ensures color == ReceivedColor <==> !isSent
  {
    if isSent then SentColor else ReceivedColor
  }

  /** Neighbouring chunks swap speaker and colour; chunks two apart agree. */
  lemma Alternates(i: nat)
    ensures Character(i + 1) != Character(i) && Character(i + 2) == Character(i)
    ensures IsSent(i + 1) == !IsSent(i) && IsSent(i + 2) == IsSent(i)
    ensures BubbleColor(IsSent(i + 1)) != BubbleColor(IsSent(i))
  {
  }
}
