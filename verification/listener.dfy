/**
 * The change subscription the board page owns: one listener that is opened on a set of
 * block ids, adjusted by removing and adding blocks while open, and closed on teardown.
 * Its transport and the delivery of notifications are not part of this model; this
 * class keeps only what the page can observe of it.
 */
module Listener {

  class BoardListener {
    var isOpen: bool
    var scope: set<string>

    constructor ()
      ensures !isOpen && scope == {}
    {
      isOpen := false;
      scope := {};
    }

    method Open(blocks: set<string>)
      requires !isOpen
      modifies this
      ensures isOpen && scope == blocks
    {
      isOpen := true;
      scope := blocks;
    }

    method RemoveBlocks(blocks: set<string>)
      requires isOpen
      modifies this
      ensures isOpen && scope == old(scope) - blocks
    {
      scope := scope - blocks;
    }

    method AddBlocks(blocks: set<string>)
      requires isOpen
      modifies this
      ensures isOpen && scope == old(scope) + blocks
    {
      scope := scope + blocks;
    }

    method Close()
      modifies this
      ensures !isOpen && scope == old(scope)
    {
      isOpen := false;
    }
  }
}
