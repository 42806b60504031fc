/**
 * Proxy.ts: an `ImageProxy` creates its `RealImage` on the first `display`
 * only. Creating a `RealImage` loads the file (and logs that); `display` logs
 * the file being shown.
 */
module Proxy {

  /** A console line: loading from disk, or displaying. */
  datatype Line = Loading(filename: string) | Displaying(filename: string)

  function Text(l: Line): string {
    match l
    case Loading(f) => "Loading image from disk: " + f
    case Displaying(f) => "Displaying image: " + f
  }

  class RealImage {
    const filename: string

    /** The constructor body minus its logging, which `LoadRealImage` adds. */
    constructor (filename: string)
      ensures this.filename == filename
    {
      this.filename := filename;
    }

    /** `display`. */
    method Display() returns (out: seq<Line>)
      ensures out == [Displaying(filename)]
    {
      out := [Displaying(filename)];
    }
  }

  /** `new RealImage(filename)`: a new image for that file, after logging its load. */
  method LoadRealImage(filename: string) returns (image: RealImage, out: seq<Line>)
    ensures fresh(image) && image.filename == filename
    ensures out == [Loading(filename)]
  {
    image := new RealImage(filename);
    out := [Loading(filename)];
  }

  class ImageProxy {
    var realImage: RealImage?
    const filename: string

    /** A new proxy holds no image and has loaded nothing. */
    constructor (filename: string)
      ensures this.filename == filename && realImage == null
    {
      this.filename := filename;
      realImage := null;
    }

    /** The image, once there is one, is of this proxy's file. */
    ghost predicate Valid()
      reads this
    {
      realImage != null ==> realImage.filename == filename
    }

    /**
     * `display`: the first call loads the file into a new `RealImage` and
     * then displays it; later calls keep that image and only display.
     */
    method Display() returns (out: seq<Line>)
      requires Valid()
      modifies this
      ensures Valid() && realImage != null
      ensures old(realImage) == null ==> fresh(realImage) && out == [Loading(filename), Displaying(filename)]
      ensures old(realImage) != null ==> realImage == old(realImage) && out == [Displaying(filename)]
    {
      var loaded := [];
      if realImage == null {
        var image;
        image, loaded := LoadRealImage(filename);
        realImage := image;
      }
      var shown := realImage.Display();
      out := loaded + shown;
    }
  }

  /** `k` identical lines. */
  function Repeat(l: Line, k: nat): (r: seq<Line>)
    ensures |r| == k
    ensures forall i :: 0 <= i < k ==> r[i] == l
  {
    if k == 0 then [] else [l] + Repeat(l, k - 1)
  }

  /**
   * `k` displays through one new proxy: the file is loaded exactly once,
   * first, and displayed `k` times; the file name reaches the image unchanged.
   */
  method DisplayTimes(filename: string, k: nat) returns (out: seq<Line>)
    requires k >= 1
    ensures out == [Loading(filename)] + Repeat(Displaying(filename), k)
  {
    var proxy := new ImageProxy(filename);
    out := proxy.Display();
    var i := 1;
    while i < k
      invariant 1 <= i <= k
      invariant proxy.Valid() && proxy.realImage != null && proxy.filename == filename
      invariant out == [Loading(filename)] + Repeat(Displaying(filename), i)
    {
      var more := proxy.Display();
      out := out + more;
      i := i + 1;
    }
  }

  /**
   * The driver: image1 displayed twice (one load), then image2 once (its own
   * load): separate proxies load independently.
   */
  method Scenario() returns (out: seq<Line>)
    ensures out == [Loading("image1.jpg"), Displaying("image1.jpg"), Displaying("image1.jpg"),
                    Loading("image2.jpg"), Displaying("image2.jpg")]
  {
    var image1 := new ImageProxy("image1.jpg");
    var d1 := image1.Display();
    var d2 := image1.Display();
    var image2 := new ImageProxy("image2.jpg");
    var d3 := image2.Display();
    out := d1 + d2 + d3;
  }

  /** The console text of the driver's lines. */
  lemma ScenarioText()
    ensures Text(Loading("image1.jpg")) == "Loading image from disk: image1.jpg"
    ensures Text(Displaying("image1.jpg")) == "Displaying image: image1.jpg"
    ensures Text(Loading("image2.jpg")) == "Loading image from disk: image2.jpg"
    ensures Text(Displaying("image2.jpg")) == "Displaying image: image2.jpg"
  {
  }
}
