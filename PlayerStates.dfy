/** The five movement states the newer player controller distinguishes.
    The enum's own declaration file is not part of this model; the values are
    the ones the classification rule produces. */
module PlayerStates {
  datatype PlayerState = Idle | Move | SlideIdle | Slide | Jump
}
