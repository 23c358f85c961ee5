/**
 * The two kinds of state a sheet can be triggered from. A SwiftUI `Binding`
 * reads and writes storage owned elsewhere, so it is modelled as a heap cell:
 * every descriptor built from the same binding sees the same, current value.
 */
module Bindings {

  /** A `Binding<T>`: a reference to a mutable value owned by some view. */
  class Binding<T> {
    var value: T

    constructor (initial: T)
      ensures value == initial
    {
      value := initial;
    }
  }

  /** The identity an `Identifiable` item exposes through `id`. */
  type ItemId = string

  /**
   * An `Identifiable` item; `rest` stands for whatever else the item holds,
   * which the library never looks at.
   */
  datatype Item = Item(id: ItemId, rest: string)
}
