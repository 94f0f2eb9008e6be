/** Model leases: every heavyweight object the turn loads is a handle on the accelerator,
    live until the code explicitly drops it (`del`). */
module Leases {
  import opened Outcomes

  /** The roles of the loaded objects. */
  datatype Capability = Tokenizer | CausalLm | SpeechSynthesis | Transcription

  /** Where a model was moved; `Unplaced` when the code does not move it (`.to(device)` absent). */
  datatype Device = Cuda | Cpu | Unplaced

  datatype Handle = Handle(id: nat, kind: Capability, model: string, device: Device)

  /** The handles a load log holds. */
  function Held(s: seq<Handle>): (r: set<Handle>)
    ensures forall h :: h in r <==> h in s
  {
    set h | h in s
  }

  class Accelerator {
    /** `torch.cuda.is_available()`, taken as fixed while the accelerator object exists. */
    const cudaAvailable: bool
    /** Every handle ever loaded, in load order; the id of a handle is its position. */
    var loaded: seq<Handle>
    /** The handles loaded and not yet released. */
    ghost var live: set<Handle>
    /** How many times `torch.cuda.empty_cache()` was called. */
    ghost var cacheClears: nat

    ghost predicate Valid()
      reads this
    {
      && (forall i | 0 <= i < |loaded| :: loaded[i].id == i)
      && (forall h | h in live :: h.id < |loaded| && loaded[h.id] == h)
    }

    /** The handles loaded since the log had `mark` entries. */
    function Since(mark: nat): (s: set<Handle>)
      reads this
      requires mark <= |loaded|
      ensures forall i | mark <= i < |loaded| :: loaded[i] in s
      ensures forall h | h in s :: exists i | mark <= i < |loaded| :: loaded[i] == h
    {
      set i | mark <= i < |loaded| :: loaded[i]
    }

    constructor (cudaAvailable: bool)
      ensures Valid() && this.cudaAvailable == cudaAvailable
      ensures loaded == [] && live == {} && cacheClears == 0
    {
      this.cudaAvailable := cudaAvailable;
      loaded := [];
      live := {};
      cacheClears := 0;
    }

    /** `"cuda" if torch.cuda.is_available() else "cpu"`. */
    function Resolve(): (d: Device)
      ensures d != Unplaced
      ensures d == Cuda <==> cudaAvailable
    {
      if cudaAvailable then Cuda else Cpu
    }

    /** Loads `model` for `kind` onto `device`; `fails` is the loader's verdict
        (a missing catalog entry, corrupt weights, no memory). */
    method Load(kind: Capability, model: string, device: Device, fails: bool) returns (h: Option<Handle>)
      requires Valid()
      modifies this`loaded, this`live
      ensures Valid()
      ensures fails ==> h == None && loaded == old(loaded) && live == old(live)
      ensures !fails ==>
        && h == Some(Handle(|old(loaded)|, kind, model, device))
        && loaded == old(loaded) + [h.value]
        && live == old(live) + {h.value}
        && h.value !in old(live)
    {
      if fails {
        h := None;
      } else {
        var handle := Handle(|loaded|, kind, model, device);
        h := Some(handle);
        loaded := loaded + [handle];
        live := live + {handle};
      }
    }

    /** `if x is not None: del x`. */
    method Release(h: Option<Handle>)
      requires Valid()
      modifies this`live
      ensures Valid()
      ensures live == if h.Some? then old(live) - {h.value} else old(live)
    {
      if h.Some? {
        live := live - {h.value};
      }
    }

    /** `torch.cuda.empty_cache()`. */
    method EmptyCache()
      modifies this`cacheClears
      ensures cacheClears == old(cacheClears) + 1
    {
      cacheClears := cacheClears + 1;
    }
  }
}
