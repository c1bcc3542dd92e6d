/** The normalised image the handler works on: PIL's `convert("RGB")` and
    `resize((224, 224))` always produce a 224 x 224 grid of RGB pixels, which
    `np.array` turns into nested lists of channel values (lambda/app.py,
    lines 93-102). The decoding itself is a library codec and is not
    modelled; the handler receives it as a parameter. */
module Imaging {

  /** A byte, and an 8-bit channel value. */
  type uint8 = x: int | 0 <= x < 256

  const Side: nat := 224
  const Channels: nat := 3

  /** Shape (224, 224, 3). */
  ghost predicate IsNormalized(g: seq<seq<seq<uint8>>>) {
    && |g| == Side
    && (forall i :: 0 <= i < |g| ==> |g[i]| == Side)
    && (forall i, j :: 0 <= i < |g| && 0 <= j < |g[i]| ==> |g[i][j]| == Channels)
  }

  /** The pixel tensor sent for inference. */
  type Grid = g: seq<seq<seq<uint8>>> | IsNormalized(g)
    witness seq(224, _ => seq(224, _ => [0, 0, 0]))
}
