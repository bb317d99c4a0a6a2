/**
 The factory-method part of the demonstration: two shape kinds that each
 draw a fixed line, and two factories that each create one kind. The C#
 class hierarchies (`Shape`, `ShapeFactory` and their subclasses) carry no
 state, so each becomes a datatype with one constructor per subclass.
 */
module Shapes {

  /** The text every shape's `Draw` line starts with. */
  const DrawPrefix := "Drawing "

  datatype Shape = Circle | Square {

    /** The console line `Draw` writes: "Drawing " and the shape's kind. */
    function Draw(): (text: string)
      ensures |DrawPrefix| < |text| && text[..|DrawPrefix|] == DrawPrefix
      ensures Circle? ==> text[|DrawPrefix|..] == "Circle"
      ensures Square? ==> text[|DrawPrefix|..] == "Square"
    {
      match this
      case Circle => "Drawing Circle"
      case Square => "Drawing Square"
    }
  }

  datatype ShapeFactory = CircleFactory | SquareFactory {

    /** Each factory creates the shape of its own kind. */
    function CreateShape(): (shape: Shape)
      ensures CircleFactory? <==> shape.Circle?
      ensures SquareFactory? <==> shape.Square?
    {
      match this
      case CircleFactory => Circle
      case SquareFactory => Square
    }
  }

  /** The drawn line tells the two shapes apart. */
  lemma DrawTellsShapesApart(a: Shape, b: Shape)
    ensures a.Draw() == b.Draw() <==> a == b
  {
    if a != b {
      assert a.Draw()[|DrawPrefix|] != b.Draw()[|DrawPrefix|];
    }
  }

  /** What a factory's product draws names that factory's kind. */
  lemma FactoryProductDraws(f: ShapeFactory)
    ensures f.CircleFactory? ==> f.CreateShape().Draw() == "Drawing Circle"
    ensures f.SquareFactory? ==> f.CreateShape().Draw() == "Drawing Square"
  {
  }
}
