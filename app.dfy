/**
 * The state of the `App` component (src/App.jsx:83-233) and its handlers: the two
 * captured photos, the estimated dimensions, the two selections and the luminaire
 * count. Each handler either leaves the state alone (where the source alerts and
 * returns) or replaces the one field it sets.
 */
module AppComponent {
  import opened Wrappers
  import opened Estimation
  import opened Lighting
  import opened Layout

  /** A captured photo as a data URL. */
  type Photo = string

  /** JavaScript truthiness of a photo slot: set and not the empty string. */
  predicate Present(p: Option<Photo>) {
    p.Some? && p.value != ""
  }

  class App {
    var photo1: Option<Photo>
    var photo2: Option<Photo>
    var dimensions: Option<Dimensions>
    var roomType: string
    var luminaireType: string
    var luminaireCount: Option<int>

    /** Dimensions are magnitudes times a positive scale, and a count is never negative. */
    ghost predicate Valid()
      reads this
    {
      (dimensions.Some? ==> NonNegative(dimensions.value)) &&
      (luminaireCount.Some? ==> luminaireCount.value >= 0)
    }

    /** The initial state of the component's hooks. */
    constructor ()
      ensures Valid()
      ensures photo1 == None && photo2 == None && dimensions == None
      ensures roomType == "" && luminaireType == "" && luminaireCount == None
    {
      photo1, photo2, dimensions := None, None, None;
      roomType, luminaireType, luminaireCount := "", "", None;
    }

    /** Store a captured photo in slot 1 or 2; any other slot number is ignored. */
    method HandleCapture(image: Photo, photoNumber: int)
      requires Valid()
      modifies this`photo1, this`photo2
      ensures Valid()
      ensures photo1 == if photoNumber == 1 then Some(image) else old(photo1)
      ensures photo2 == if photoNumber == 2 then Some(image) else old(photo2)
    {
      if photoNumber == 1 { photo1 := Some(image); }
      if photoNumber == 2 { photo2 := Some(image); }
    }

    method SelectRoomType(value: string)
      requires Valid()
      modifies this`roomType
      ensures Valid()
      ensures roomType == value
    {
      roomType := value;
    }

    method SelectLuminaireType(value: string)
      requires Valid()
      modifies this`luminaireType
      ensures Valid()
      ensures luminaireType == value
    {
      luminaireType := value;
    }

    /**
     * `calculateDimensions` once both photos have loaded. `kps1`, `kps2` and
     * `matches` are what ORB and the cross-checked matcher found in the two photos;
     * `findHomography` stands for the RANSAC fit. Without both photos, with fewer
     * than four matches, or without a 3x3 homography, the dimensions stay as they were.
     */
    method CalculateDimensions(kps1: seq<Keypoint>, kps2: seq<Keypoint>, matches: seq<Match>,
                               findHomography: (seq<real>, seq<real>) -> seq<real>)
      requires Valid()
      requires IndicesInRange(kps1, kps2, matches)
      modifies this`dimensions
      ensures Valid()
      ensures var r := EstimateDimensions(kps1, kps2, matches, findHomography);
        dimensions == if Present(photo1) && Present(photo2) && r.Success? then Some(r.value) else old(dimensions)
    {
      if !Present(photo1) || !Present(photo2) {
        return;
      }
      if |matches| < MinMatches {
        return;
      }
      var points1, points2 := FlattenMatches(kps1, kps2, matches);
      var homography := findHomography(points1, points2);
      var d := ProxyDimensions(homography);
      if d.None? {
        return;
      }
      dimensions := Some(d.value);
    }

    /**
     * `calculateLuminaires`: with dimensions and both selections present, store
     * the required count; otherwise leave the state unchanged.
     */
    method CalculateLuminaires()
      requires Valid()
      modifies this`luminaireCount
      ensures Valid()
      ensures luminaireCount ==
        if dimensions.None? || roomType == "" || luminaireType == "" then old(luminaireCount)
        else Some(RequiredCount(dimensions.value, roomType, luminaireType))
    {
      if dimensions.None? || roomType == "" || luminaireType == "" {
        return;
      }
      var count := RequiredCount(dimensions.value, roomType, luminaireType);
      luminaireCount := Some(count);
    }

    /**
     * `drawLuminaireLayout`: nothing is drawn without dimensions or a count;
     * otherwise the luminaire positions drawn on the canvas, row-major over the room.
     */
    method DrawLuminaireLayout() returns (drawn: Option<seq<Point>>)
      requires Valid()
      ensures drawn.None? <==> dimensions.None? || luminaireCount.None?
      ensures drawn.Some? ==>
        |drawn.value| == luminaireCount.value &&
        RowMajor(dimensions.value.width, dimensions.value.height, CeilSqrt(luminaireCount.value), drawn.value)
    {
      if dimensions.None? || luminaireCount.None? {
        return None;
      }
      var positions := PlaceLuminaires(dimensions.value.width, dimensions.value.height, luminaireCount.value);
      return Some(positions);
    }
  }
}
