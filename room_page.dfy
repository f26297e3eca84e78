/** The admin dashboard's room list over built-in sample houses, with a popup that collects
    a reason for declining one. */
module RoomPage {
  import opened Js
  import opened Seqs

  datatype Tab = Approved | Pending

  /** A sample house. `status` is 'Booked', 'Unbooked' or any other text. */
  datatype House = House(id: int, image: string, name: string, location: string, price: string, description: string, status: string)

  const SampleImage := "https://keyvendors.com/blogs/wp-content/uploads/2023/06/interior-design-company-1-1024x602.jpg"

  const HouseData := [
    House(1, SampleImage, "Luxury Villa", "Beverly Hills, CA", "$1,200,000",
          "A luxurious villa with 5 bedrooms, a private pool, and stunning city views.", "Booked"),
    House(2, SampleImage, "Modern Apartment", "New York, NY", "$450,000",
          "A stylish apartment located in the heart of the city, with 2 bedrooms and modern amenities.", "Unbooked")
  ]

  /** The tab's list: on Approved the houses whose status is a non-empty string, on Pending all. */
  function FilteredHouses(tab: Tab, houses: seq<House>): seq<House> {
    if tab == Approved then Filter((h: House) => h.status != "", houses) else houses
  }

  /** The Approved tab keeps exactly the houses with a status, in order; Pending keeps all. */
  lemma FilteredExactly(houses: seq<House>, h: House)
    ensures h in FilteredHouses(Approved, houses) <==> h in houses && h.status != ""
    ensures IsSubsequence(FilteredHouses(Approved, houses), houses)
    ensures FilteredHouses(Pending, houses) == houses
  {
    FilterMembers((h: House) => h.status != "", houses);
    FilterIsSubsequence((h: House) => h.status != "", houses);
  }

  /** Every sample house has a status, so both tabs list both houses. */
  lemma SampleHousesOnBothTabs()
    ensures FilteredHouses(Approved, HouseData) == HouseData
  {
    FilterKeepsAll((h: House) => h.status != "", HouseData);
  }

  /** The status badge is rendered on the Approved tab, the Approve/Decline buttons otherwise. */
  predicate ShowsBadge(tab: Tab) { tab == Approved }

  predicate ShowsButtons(tab: Tab) { !ShowsBadge(tab) }

  const GreenBadge := "bg-green-100 text-green-600"
  const GreyBadge := "bg-gray-100 text-gray-600"

  /** The badge's colour classes. */
  function BadgeClass(h: House): string {
    if h.status == "Booked" then GreenBadge else GreyBadge
  }

  /** The badge is green exactly for a booked house; of the sample houses the first is green
      and the second grey. */
  lemma BadgeGreenExactlyWhenBooked(h: House)
    ensures BadgeClass(h) == GreenBadge <==> h.status == "Booked"
    ensures BadgeClass(HouseData[0]) == GreenBadge && BadgeClass(HouseData[1]) == GreyBadge
  {
    assert GreenBadge[5] != GreyBadge[5];
  }

  class Page {
    var activeTab: Tab
    var showPopup: bool
    var declineMessage: string
    var currentHouse: Option<House>

    /** The popup is open exactly while a house is being declined, that house is one of the
        listed ones, and a closed popup holds no message. */
    ghost predicate Valid()
      reads this
    {
      && (showPopup <==> currentHouse.Some?)
      && (currentHouse.Some? ==> currentHouse.value in HouseData)
      && (!showPopup ==> declineMessage == "")
    }

    /** The popup is closed and cleared. */
    ghost predicate Closed()
      reads this
    {
      !showPopup && declineMessage == "" && currentHouse.None?
    }

    constructor ()
      ensures Valid() && Closed() && activeTab == Approved
    {
      activeTab, showPopup, declineMessage, currentHouse := Approved, false, "", None;
    }

    method SetTab(t: Tab)
      requires Valid()
      modifies this`activeTab
      ensures Valid() && activeTab == t
    {
      activeTab := t;
    }

    /** `handleDeclineClick(h)`: the popup opens for `h`. The Decline button exists only on
        the cards of the tab that shows buttons. */
    method DeclineClick(h: House)
      requires Valid()
      requires ShowsButtons(activeTab) && h in FilteredHouses(activeTab, HouseData)
      modifies this`currentHouse, this`showPopup
      ensures Valid()
      ensures currentHouse == Some(h) && showPopup
    {
      currentHouse := Some(h);
      showPopup := true;
    }

    /** Typing in the popup's text area, which exists only while the popup is open. */
    method ChangeMessage(text: string)
      requires Valid() && showPopup
      modifies this`declineMessage
      ensures Valid() && declineMessage == text
    {
      declineMessage := text;
    }

    /** `handlePopupClose`. */
    method PopupClose()
      modifies this`showPopup, this`declineMessage, this`currentHouse
      ensures Valid() && Closed()
    {
      showPopup := false;
      declineMessage := "";
      currentHouse := None;
    }

    /** `handleDeclineSubmit`: reports the message and the house, then closes as Cancel does.
        Nothing is sent anywhere. */
    method DeclineSubmit() returns (message: string, house: Option<House>)
      requires Valid()
      modifies this`showPopup, this`declineMessage, this`currentHouse
      ensures message == old(declineMessage) && house == old(currentHouse)
      ensures house.Some? ==> house.value in HouseData
      ensures Valid() && Closed()
    {
      message, house := declineMessage, currentHouse;
      PopupClose();
    }
  }
}
