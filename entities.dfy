/** The domain entities: consumers, the company / building / producer
    hierarchy, and deliveries pairing a consumer with a producer. */
module Entities {
  import opened Wrappers
  import opened TimeBlocks

  /** A consumer needing `requiredUnits` before `departureDate`. */
  datatype Consumer = Consumer(id: string, requiredUnits: real, departureDate: Instant)

  /** A company and the buildings that registered with it. */
  class Company {
    const id: string
    const maxSupply: Option<real>
    var buildings: seq<Building>

    constructor (id: string, maxSupply: Option<real>)
      ensures this.id == id && this.maxSupply == maxSupply && buildings == []
    {
      this.id := id;
      this.maxSupply := maxSupply;
      buildings := [];
    }

    method AddBuilding(building: Building)
      modifies this
      ensures buildings == old(buildings) + [building]
    {
      buildings := buildings + [building];
    }
  }

  /** A building; constructing one with a company appends it to that
      company's buildings. */
  class Building {
    const id: string
    const maxSupply: Option<real>
    const company: Company?
    var producers: seq<Producer>

    constructor (id: string, maxSupply: Option<real>, company: Company?)
      modifies company
      ensures this.id == id && this.maxSupply == maxSupply && this.company == company
      ensures producers == []
      ensures company != null ==> company.buildings == old(company.buildings) + [this]
    {
      this.id := id;
      this.maxSupply := maxSupply;
      this.company := company;
      producers := [];
      new;
      if company != null {
        company.AddBuilding(this);
      }
    }

    method AddProducer(producer: Producer)
      modifies this
      ensures producers == old(producers) + [producer]
    {
      producers := producers + [producer];
    }
  }

  /** A producer supplying at most `maxSupply` units per time block;
      constructing one with a building appends it to that building's
      producers. Two producers are the same only if they are the same
      object, as for the source's objects, which define no equality. */
  class Producer {
    const id: string
    const maxSupply: real
    const building: Building?

    constructor (id: string, maxSupply: real, building: Building?)
      modifies building
      ensures this.id == id && this.maxSupply == maxSupply && this.building == building
      ensures building != null ==> building.producers == old(building.producers) + [this]
    {
      this.id := id;
      this.maxSupply := maxSupply;
      this.building := building;
      new;
      if building != null {
        building.AddProducer(this);
      }
    }
  }

  /** The identifier `"c-<consumer id>, p-<producer id>"`. */
  function DeliveryId(consumerId: string, producerId: string): string
  {
    "c-" + consumerId + ", p-" + producerId
  }

  datatype Delivery = Delivery(consumer: Consumer, producer: Producer)
  {
    function Id(): string
    {
      DeliveryId(consumer.id, producer.id)
    }
  }

  /** When consumer identifiers contain no comma, the identifier determines
      the (consumer id, producer id) pair. */
  lemma DeliveryIdInjective(c1: string, p1: string, c2: string, p2: string)
    requires ',' !in c1 && ',' !in c2
    requires DeliveryId(c1, p1) == DeliveryId(c2, p2)
    ensures c1 == c2 && p1 == p2
  {
    var s1, s2 := DeliveryId(c1, p1), DeliveryId(c2, p2);
    assert forall k :: 0 <= k < |c1| ==> s1[2 + k] == c1[k];
    assert forall k :: 0 <= k < |c2| ==> s2[2 + k] == c2[k];
    assert s1[2 + |c1|] == ',' && s2[2 + |c2|] == ',';
    if |c1| != |c2| {
      assert false;
    }
    assert c1 == s1[2..2 + |c1|] == s2[2..2 + |c2|] == c2;
    assert p1 == s1[|c1| + 6..] == s2[|c2| + 6..] == p2;
  }

  /** Without that condition two different pairs can share an identifier,
      so one delivery would replace the other. */
  lemma DeliveryIdCollision()
    ensures DeliveryId("a, p-b", "c") == DeliveryId("a", "b, p-c")
  {
  }
}
