/** The fixed list of cinemas and the lookup by id. The service keeps no
    state: both operations are functions of their arguments. */
module Cinemas {
  import opened Wrappers
  import opened Models

  function AllCinemas(): (r: seq<Cinema>)
    ensures |r| == 2 && r[0].id == 1 && r[1].id == 2
    ensures forall i :: 0 <= i < |r| ==> r[i].countryOfOrigin == "Serbia" && r[i].city == "Belgrade"
  {
    [ Cinema(1, "MovieUniverse Rajiceva", "Serbia", "Belgrade"),
      Cinema(2, "MovieUniverse Knez Mihailova", "Serbia", "Belgrade") ]
  }

  /** `find`: the first cinema of `cs` with the given id. */
  function Find(cs: seq<Cinema>, id: int): (r: Option<Cinema>)
    ensures r.Some? ==> r.value in cs && r.value.id == id
    ensures r.None? <==> forall i :: 0 <= i < |cs| ==> cs[i].id != id
    ensures r.Some? ==> exists k :: 0 <= k < |cs| && cs[k] == r.value && forall j :: 0 <= j < k ==> cs[j].id != id
    decreases |cs|
  {
    if cs == [] then None
    else if cs[0].id == id then Some(cs[0])
    else Find(cs[1..], id)
  }

  /** `getCinemaById`: the listed cinema with the id, if any. */
  function CinemaById(id: int): (r: Option<Cinema>)
    ensures r.Some? ==> r.value in AllCinemas() && r.value.id == id
    ensures r.None? <==> forall i :: 0 <= i < |AllCinemas()| ==> AllCinemas()[i].id != id
  {
    Find(AllCinemas(), id)
  }

  /** The lookup finds a cinema exactly for ids 1 and 2, and it is the one
      listed with that id. */
  lemma CinemaByIdFound(id: int)
    ensures CinemaById(id).Some? <==> id == 1 || id == 2
    ensures id == 1 ==> CinemaById(id) == Some(AllCinemas()[0])
    ensures id == 2 ==> CinemaById(id) == Some(AllCinemas()[1])
  {
  }

  /** The two ids are distinct, so a listed cinema is the lookup of its own id. */
  lemma CinemaIdsDistinct()
    ensures forall i, j :: 0 <= i < j < |AllCinemas()| ==> AllCinemas()[i].id != AllCinemas()[j].id
    ensures forall i :: 0 <= i < |AllCinemas()| ==> CinemaById(AllCinemas()[i].id) == Some(AllCinemas()[i])
  {
    assert CinemaById(1) == Some(AllCinemas()[0]);
    assert CinemaById(2) == Some(AllCinemas()[1]);
  }
}
