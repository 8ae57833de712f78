/** Reading a host's machine from the provider's listing, and why the listing may be read as one lookup. */
module FleetMachines {
  import opened FleetState
  import opened FleetPlacement
  import opened FleetWorld

  /** One listed instance, with the identity it was launched with; its state may be missing. */
  datatype Listed = Listed(id: string, fleetTag: string, hostTag: string, token: string, state: Option<Lifecycle>)

  datatype Found = Nothing | One(instance: Listed) | Unmanaged | Several

  predicate Managed(stack: string, h: Host, i: Listed) {
    i.fleetTag == stack && i.hostTag == h.id && i.token == h.launchToken
  }

  /** The scan of a listing: any foreign instance, or a second one of our own, is refused. */
  method Find(stack: string, h: Host, listing: seq<Listed>) returns (found: Found)
    ensures found.Nothing? <==> listing == []
    ensures forall i :: found == One(i) <==> listing == [i] && Managed(stack, h, i)
    ensures found.Unmanaged? ==> exists i :: i in listing && !Managed(stack, h, i)
    ensures found.Several? ==> |listing| >= 2 && Managed(stack, h, listing[0]) && Managed(stack, h, listing[1])
  {
    found := Nothing;
    for k := 0 to |listing|
      invariant k == 0 <==> found.Nothing?
      invariant k > 0 ==> k == 1 && found == One(listing[0]) && Managed(stack, h, listing[0])
    {
      if listing[k].fleetTag != stack || listing[k].hostTag != h.id || listing[k].token != h.launchToken {
        assert listing[k] in listing && !Managed(stack, h, listing[k]);
        return Unmanaged;
      }
      if found != Nothing {
        return Several;
      }
      found := One(listing[k]);
    }
  }

  /**
   * What the provider may list for a host. Every entry shows a machine of ours that exists, perhaps in an earlier
   * state. Asked for an instance ID it lists only that instance, and nothing only once the instance is terminated.
   */
  ghost predicate MayList(stack: string, machines: map<string, Machine>, h: Host, listing: seq<Listed>) {
    && (forall i | i in listing && i.fleetTag == stack ::
          && i.token in machines && machines[i.token].instanceId == i.id && machines[i.token].hostTag == i.hostTag
          && (i.state.Some? ==> MayShow(machines[i.token].state, i.state.value)))
    && (h.instanceId != "" ==>
          && (forall i | i in listing :: i.id == h.instanceId)
          && (listing == [] ==>
                forall t | t in machines && machines[t].instanceId == h.instanceId :: machines[t].state == Terminated))
  }

  /**
   * A listing that the scan accepts tells about this host's own machine and no other: whatever other stacks run, an
   * accepted answer is one of the lookups the fleet's steps are proved for.
   */
  lemma AcceptedListingIsALookup(stack: string, machines: map<string, Machine>, h: Host, listing: seq<Listed>)
    requires MayList(stack, machines, h, listing)
    ensures forall i | listing == [i] && Managed(stack, h, i) && i.state.Some? ::
              LookupAnswers(machines, h, Present(i.id, i.state.value))
  {
    forall i | listing == [i] && Managed(stack, h, i) && i.state.Some?
      ensures LookupAnswers(machines, h, Present(i.id, i.state.value))
    {
      assert i in listing;
    }
  }
}
