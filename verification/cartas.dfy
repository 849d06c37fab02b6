/** Values shared by the card detector, the baccarat round and the integration layer. */
module Cartas {

  /** Python's `None` versus a present value. */
  datatype Option<+T> = None | Some(value: T)

  /** A card as read from its QR payload: the `color` and `valor` keys of the JSON object.
      The decoder checks only that both keys are present, so the colour is any string and
      the value any integer (the printed deck uses four colour names and the values 0..9). */
  datatype Carta = Carta(color: string, valor: int)
}
