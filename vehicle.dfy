/**
 * The `MyCar` struct that conforms to the `Vehicle` protocol. The UIKit colour type is
 * replaced by an enumeration holding the two colours the playground uses.
 */
module Vehicles {

  datatype Color = Blue | Red

  class MyCar {
    const numberOfWheels: int := 4
    var color: Color

    /**
     * The memberwise initializer `MyCar(color:)`; without an argument the colour is the
     * declared default, blue. The wheel count is the constant 4 either way.
     */
    constructor (color: Color := Blue)
      ensures this.color == color
    {
      this.color := color;
    }

    /**
     * The protocol's mutating method: repaints the car red. The frame lets it write the
     * colour only; the wheel count is a constant.
     */
    method ChangeColor()
      modifies this`color
      ensures color == Red
    {
      color := Red;
    }
  }
}
