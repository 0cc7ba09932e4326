/**
 * The storefront's delivery-mode hook: the choice between delivery and collection and the
 * delivery address, remembered in browser storage and asked for once on a first visit.
 */
module DeliveryMode {
  import opened Wrappers
  import opened Delivery

  const ModeKey := "mm-tacos-delivery-mode"
  const AddressKey := "mm-tacos-delivery-address"

  /** `localStorage.getItem`: the stored value, or none when the key is absent. */
  function Get(storage: map<string, string>, key: string): Option<string> {
    if key in storage then Some(storage[key]) else None
  }

  /** The mode adopted at mount: only a stored value that is exactly one of the two codes. */
  function StoredMode(storage: map<string, string>): (r: Option<DeliveryType>)
    ensures r.Some? <==> ModeKey in storage && (storage[ModeKey] == "livraison" || storage[ModeKey] == "emporter")
    ensures r.Some? ==> Code(r.value) == storage[ModeKey]
  {
    match Get(storage, ModeKey)
    case None => None
    case Some(s) => Parse(s)
  }

  /** The address restored at mount: only next to a valid mode, and only when not empty. */
  function StoredAddress(storage: map<string, string>): (r: Option<string>)
    ensures r.Some? <==> StoredMode(storage).Some? && AddressKey in storage && storage[AddressKey] != ""
    ensures r.Some? ==> r.value == storage[AddressKey]
  {
    if StoredMode(storage).Some? && AddressKey in storage && storage[AddressKey] != "" then Some(storage[AddressKey])
    else None
  }

  /** The writes of `handleModeChange`: the mode when one is given, the address when it is not empty. */
  function Saved(storage: map<string, string>, mode: Option<DeliveryType>, address: Option<string>): (r: map<string, string>)
    ensures forall k :: k != ModeKey && k != AddressKey ==> Get(r, k) == Get(storage, k)
    ensures Get(r, ModeKey) == if mode.Some? then Some(Code(mode.value)) else Get(storage, ModeKey)
    ensures Get(r, AddressKey) == if address.Some? && address.value != "" then address else Get(storage, AddressKey)
  {
    var withMode := if mode.Some? then storage[ModeKey := Code(mode.value)] else storage;
    if address.Some? && address.value != "" then withMode[AddressKey := address.value] else withMode
  }

  /** A mode and a non-empty address saved by `handleModeChange` are what the next visit restores. */
  lemma SavedThenRestored(storage: map<string, string>, mode: DeliveryType, address: string)
    requires address != ""
    ensures StoredMode(Saved(storage, Some(mode), Some(address))) == Some(mode)
    ensures StoredAddress(Saved(storage, Some(mode), Some(address))) == Some(address)
  {
    ParseCode(mode);
    assert Get(Saved(storage, Some(mode), Some(address)), ModeKey) == Some(Code(mode));
  }

  /** Saving without a mode leaves the remembered mode as it was. */
  lemma SavedWithoutMode(storage: map<string, string>, address: Option<string>)
    ensures StoredMode(Saved(storage, None, address)) == StoredMode(storage)
  {
    assert Get(Saved(storage, None, address), ModeKey) == Get(storage, ModeKey);
  }

  /** The hook's state next to its storage. */
  class Hook {
    var storage: map<string, string>
    var deliveryMode: Option<DeliveryType>
    var deliveryAddress: string
    var showModeModal: bool
    var isInitialized: bool
    /** The 1.5 second timer that opens the mode dialog is running. */
    var modalTimerPending: bool

    /** The first render, before the mount effect. */
    constructor (storage: map<string, string>)
      ensures this.storage == storage
      ensures deliveryMode == None && deliveryAddress == "" && !showModeModal && !isInitialized && !modalTimerPending
    {
      this.storage := storage;
      deliveryMode := None;
      deliveryAddress := "";
      showModeModal := false;
      isInitialized := false;
      modalTimerPending := false;
    }

    /**
     * The mount effect: a valid stored mode (and a non-empty stored address beside it) is restored
     * and the hook is initialized; otherwise the dialog's timer is started and the hook stays
     * uninitialized.
     */
    method Mount()
      modifies this`deliveryMode, this`deliveryAddress, this`isInitialized, this`modalTimerPending
      ensures deliveryMode == if StoredMode(storage).Some? then StoredMode(storage) else old(deliveryMode)
      ensures deliveryAddress == StoredAddress(storage).GetOr(old(deliveryAddress))
      ensures isInitialized == (StoredMode(storage).Some? || old(isInitialized))
      ensures modalTimerPending == (StoredMode(storage).None? || old(modalTimerPending))
    {
      var storedMode := Get(storage, ModeKey);
      var storedAddress := Get(storage, AddressKey);
      var mode := if storedMode.Some? then Parse(storedMode.value) else None;
      if mode.Some? {
        deliveryMode := mode;
        if storedAddress.Some? && storedAddress.value != "" {
          deliveryAddress := storedAddress.value;
        }
      } else {
        modalTimerPending := true;
        return;
      }
      isInitialized := true;
    }

    /** The timer fires: the mode dialog opens. */
    method TimerElapsed()
      modifies this`showModeModal, this`modalTimerPending
      ensures showModeModal == (old(modalTimerPending) || old(showModeModal))
      ensures !modalTimerPending
    {
      if modalTimerPending {
        showModeModal := true;
        modalTimerPending := false;
      }
    }

    /** The effect's cleanup on unmount: the timer is cancelled. */
    method Unmount()
      modifies this`modalTimerPending
      ensures !modalTimerPending
    {
      modalTimerPending := false;
    }

    /**
     * `handleModeChange`: the mode is taken as given (persisted only when there is one), the address
     * is taken and persisted only when it is not empty, and the dialog closes.
     */
    method HandleModeChange(mode: Option<DeliveryType>, address: Option<string>)
      modifies this`storage, this`deliveryMode, this`deliveryAddress, this`showModeModal, this`isInitialized
      ensures deliveryMode == mode
      ensures deliveryAddress == if address.Some? && address.value != "" then address.value else old(deliveryAddress)
      ensures storage == Saved(old(storage), mode, address)
      ensures !showModeModal && isInitialized
    {
      deliveryMode := mode;
      if mode.Some? {
        storage := storage[ModeKey := Code(mode.value)];
      }
      if address.Some? && address.value != "" {
        deliveryAddress := address.value;
        storage := storage[AddressKey := address.value];
      }
      showModeModal := false;
      isInitialized := true;
    }

    /** `handleViewMenu`: the dialog closes without a choice. */
    method HandleViewMenu()
      modifies this`showModeModal, this`isInitialized
      ensures !showModeModal && isInitialized
    {
      showModeModal := false;
      isInitialized := true;
    }
  }
}
