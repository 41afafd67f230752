/** What the inference engine returns (time-ordered segments, each with its
    text and its sub-word tokens) and the two views of it the application
    uses: the texts it emits and the flat token prompt it carries over. */
module Prompt {

  /** A token id of the inference engine's vocabulary. */
  type Token = int

  datatype Segment = Segment(text: string, tokens: seq<Token>)

  /** The segment texts, in the order the engine returned them. */
  function Texts(segments: seq<Segment>): (texts: seq<string>)
    ensures |texts| == |segments|
    ensures forall i :: 0 <= i < |segments| ==> texts[i] == segments[i].text
    decreases |segments|
  {
    if segments == [] then [] else [segments[0].text] + Texts(segments[1..])
  }

  /** Every token of every segment, segment after segment, in order. */
  function Flatten(segments: seq<Segment>): seq<Token>
    decreases |segments|
  {
    if segments == [] then []
    else Flatten(segments[..|segments| - 1]) + segments[|segments| - 1].tokens
  }

  /** Total number of tokens, counted segment by segment from the front. */
  function TokenCount(segments: seq<Segment>): nat
    decreases |segments|
  {
    if segments == [] then 0 else |segments[0].tokens| + TokenCount(segments[1..])
  }

  lemma {:induction false} FlattenAppend(a: seq<Segment>, b: seq<Segment>)
    ensures Flatten(a + b) == Flatten(a) + Flatten(b)
    decreases |b|
  {
    if b == [] {
      assert a + b == a;
    } else {
      var b' := b[..|b| - 1];
      assert (a + b)[..|a + b| - 1] == a + b';
      FlattenAppend(a, b');
    }
  }

  /** The flat prompt holds exactly as many tokens as the segments hold. */
  lemma {:induction false} FlattenLength(segments: seq<Segment>)
    ensures |Flatten(segments)| == TokenCount(segments)
    decreases |segments|
  {
    if segments != [] {
      assert segments == [segments[0]] + segments[1..];
      FlattenAppend([segments[0]], segments[1..]);
      assert Flatten([segments[0]]) == Flatten([]) + segments[0].tokens;
      FlattenLength(segments[1..]);
    }
  }

  /** Token `j` of segment `i` sits in the flat prompt right after all the
      tokens of the segments before `i`: segment-then-token order. */
  lemma FlattenAt(segments: seq<Segment>, i: nat, j: nat)
    requires i < |segments| && j < |segments[i].tokens|
    ensures var offset := |Flatten(segments[..i])|;
      offset + j < |Flatten(segments)| && Flatten(segments)[offset + j] == segments[i].tokens[j]
  {
    assert segments == segments[..i + 1] + segments[i + 1..];
    FlattenAppend(segments[..i + 1], segments[i + 1..]);
    assert segments[..i + 1][..i] == segments[..i];
  }
}
