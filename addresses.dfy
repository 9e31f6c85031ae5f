/** The address book the coordinator consults. Its own implementation is not part of
    this model: the index lookup is an arbitrary function, and `Increment` records that
    it was called and with what, and may change the address pools. */
module AddressBook {

  class Addresses {
    const networkId: string
    /** `findIndexes(address)`: whether the address is a receive address, and its index. */
    const findIndexes: string -> (bool, int)
    var changeAddresses: seq<string>
    /** The arguments of every `increment(start, count)` call, oldest first. */
    var increments: seq<(int, int)>

    constructor (networkId: string, findIndexes: string -> (bool, int), changeAddresses: seq<string>)
      ensures this.networkId == networkId && this.findIndexes == findIndexes
      ensures this.changeAddresses == changeAddresses && increments == []
    {
      this.networkId := networkId;
      this.findIndexes := findIndexes;
      this.changeAddresses := changeAddresses;
      increments := [];
    }

    /** Records the call; the address pools may change in any way. */
    method Increment(start: int, count: int)
      modifies this`increments, this`changeAddresses
      ensures increments == old(increments) + [(start, count)]
    {
      increments := increments + [(start, count)];
    }
  }
}
