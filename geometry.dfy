/** The geometry exercise: a mutable `Rectangle` and a `RectPrism` that extends
    it with a height. */
module Geometry {

  import opened Primitives

  class Rectangle {
    var length: int32
    var width: int32

    constructor (length: int32, width: int32)
      ensures this.length == length && this.width == width
    {
      this.length := length;
      this.width := width;
    }

    method GetWidth() returns (w: int32)
      ensures w == width
    {
      w := width;
    }

    method GetLength() returns (l: int32)
      ensures l == length
    {
      l := length;
    }

    method SetWidth(width: int32)
      modifies this`width
      ensures this.width == width && length == old(length)
    {
      this.width := width;
    }

    method SetLength(length: int32)
      modifies this`length
      ensures this.length == length && width == old(width)
    {
      this.length := length;
    }
  }

  /** A rectangle with a height. The inherited length and width live in `rect`,
      which is created fresh by the constructor. */
  class RectPrism {
    const rect: Rectangle
    var height: int32

    constructor (length: int32, width: int32, height: int32)
      ensures fresh(rect) && rect.length == length && rect.width == width
      ensures this.height == height
    {
      rect := new Rectangle(length, width);
      this.height := height;
    }

    method GetHeight() returns (h: int32)
      ensures h == height
    {
      h := height;
    }

    method SetHeight(height: int32)
      modifies this`height
      ensures this.height == height
      ensures rect.length == old(rect.length) && rect.width == old(rect.width)
    {
      this.height := height;
    }

    /** The inherited getters and setters; the setters leave the height alone. */
    method GetWidth() returns (w: int32)
      ensures w == rect.width
    {
      w := rect.GetWidth();
    }

    method GetLength() returns (l: int32)
      ensures l == rect.length
    {
      l := rect.GetLength();
    }

    method SetWidth(width: int32)
      modifies rect`width
      ensures rect.width == width && rect.length == old(rect.length)
      ensures height == old(height)
    {
      rect.SetWidth(width);
    }

    method SetLength(length: int32)
      modifies rect`length
      ensures rect.length == length && rect.width == old(rect.width)
      ensures height == old(height)
    {
      rect.SetLength(length);
    }
  }
}
