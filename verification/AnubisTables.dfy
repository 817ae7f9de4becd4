/** The lookup tables of the Anubis cipher, each a decision tree over the bits of the
    index, and what they hold: multiples of one S-box in the field GF(2^8) of the
    polynomial x^8 + x^4 + x^3 + x^2 + 1. */
module AnubisTables {

  function T0(x: bv8): bv32 {
    if x & 0x80 == 0 then
      if x & 0x40 == 0 then
        if x & 0x20 == 0 then
          if x & 0x10 == 0 then
            if x & 0x08 == 0 then
              if x & 0x04 == 0 then
                if x & 2 == 0 then if x & 1 == 0 then 0xba69d2bb else 0x54a84de5 else if x & 1 == 0 then 0x2f5ebce2 else 0x74e8cd25
              else
                if x & 2 == 0 then if x & 1 == 0 then 0x53a651f7 else 0xd3bb6bd0 else if x & 1 == 0 then 0xd2b96fd6 else 0x4d9a29b3
            else
              if x & 0x04 == 0 then
                if x & 2 == 0 then if x & 1 == 0 then 0x50a05dfd else 0xac458acf else if x & 1 == 0 then 0x8d070e09 else 0xbf63c6a5
              else
                if x & 2 == 0 then if x & 1 == 0 then 0x70e0dd3d else 0x52a455f1 else if x & 1 == 0 then 0x9a29527b else 0x4c982db5
          else
            if x & 0x08 == 0 then
              if x & 0x04 == 0 then
                if x & 2 == 0 then if x & 1 == 0 then 0xeac98f46 else 0xd5b773c4 else if x & 1 == 0 then 0x97336655 else 0xd1bf63dc
              else
                if x & 2 == 0 then if x & 1 == 0 then 0x3366ccaa else 0x51a259fb else if x & 1 == 0 then 0x5bb671c7 else 0xa651a2f3
            else
              if x & 0x04 == 0 then
                if x & 2 == 0 then if x & 1 == 0 then 0xdea15ffe else 0x48903dad else if x & 1 == 0 then 0xa84d9ad7 else 0x992f5e71
              else
                if x & 2 == 0 then if x & 1 == 0 then 0xdbab4be0 else 0x3264c8ac else if x & 1 == 0 then 0xb773e695 else 0xfce5d732
        else
          if x & 0x10 == 0 then
            if x & 0x08 == 0 then
              if x & 0x04 == 0 then
                if x & 2 == 0 then if x & 1 == 0 then 0xe3dbab70 else 0x9e214263 else if x & 1 == 0 then 0x913f7e41 else 0x9b2b567d
              else
                if x & 2 == 0 then if x & 1 == 0 then 0xe2d9af76 else 0xbb6bd6bd else if x & 1 == 0 then 0x4182199b else 0x6edca579
            else
              if x & 0x04 == 0 then
                if x & 2 == 0 then if x & 1 == 0 then 0xa557aef9 else 0xcb8b0b80 else if x & 1 == 0 then 0x6bd6b167 else 0x95376e59
              else
                if x & 2 == 0 then if x & 1 == 0 then 0xa15fbee1 else 0xf3fbeb10 else if x & 1 == 0 then 0xb17ffe81 else 0x0204080c
          else
            if x & 0x08 == 0 then
              if x & 0x04 == 0 then
                if x & 2 == 0 then if x & 1 == 0 then 0xcc851792 else 0xc49537a2 else if x & 1 == 0 then 0x1d3a744e else 0x14285078
              else
                if x & 2 == 0 then if x & 1 == 0 then 0xc39b2bb0 else 0x63c69157 else if x & 1 == 0 then 0xdaa94fe6 else 0x5dba69d3
            else
              if x & 0x04 == 0 then
                if x & 2 == 0 then if x & 1 == 0 then 0x5fbe61df else 0xdca557f2 else if x & 1 == 0 then 0x7dfae913 else 0xcd871394
              else
                if x & 2 == 0 then if x & 1 == 0 then 0x7ffee11f else 0x5ab475c1 else if x & 1 == 0 then 0x6cd8ad75 else 0x5cb86dd5
      else
        if x & 0x20 == 0 then
          if x & 0x10 == 0 then
            if x & 0x08 == 0 then
              if x & 0x04 == 0 then
                if x & 2 == 0 then if x & 1 == 0 then 0xf7f3fb08 else 0x264c98d4 else if x & 1 == 0 then 0xffe3db38 else 0xedc79354
              else
                if x & 2 == 0 then if x & 1 == 0 then 0xe8cd874a else 0x9d274e69 else if x & 1 == 0 then 0x6fdea17f else 0x8e010203
            else
              if x & 0x04 == 0 then
                if x & 2 == 0 then if x & 1 == 0 then 0x19326456 else 0xa05dbae7 else if x & 1 == 0 then 0xf0fde71a else 0x890f1e11
              else
                if x & 2 == 0 then if x & 1 == 0 then 0x0f1e3c22 else 0x070e1c12 else if x & 1 == 0 then 0xaf4386c5 else 0xfbebcb20
          else
            if x & 0x08 == 0 then
              if x & 0x04 == 0 then
                if x & 2 == 0 then if x & 1 == 0 then 0x08102030 else 0x152a547e else if x & 1 == 0 then 0x0d1a342e else 0x04081018
              else
                if x & 2 == 0 then if x & 1 == 0 then 0x01020406 else 0x64c88d45 else if x & 1 == 0 then 0xdfa35bf8 else 0x76ecc529
            else
              if x & 0x04 == 0 then
                if x & 2 == 0 then if x & 1 == 0 then 0x79f2f90b else 0xdda753f4 else if x & 1 == 0 then 0x3d7af48e else 0x162c5874
              else
                if x & 2 == 0 then if x & 1 == 0 then 0x3f7efc82 else 0x376edcb2 else if x & 1 == 0 then 0x6ddaa973 else 0x3870e090
        else
          if x & 0x10 == 0 then
            if x & 0x08 == 0 then
              if x & 0x04 == 0 then
                if x & 2 == 0 then if x & 1 == 0 then 0xb96fdeb1 else 0x73e6d137 else if x & 1 == 0 then 0xe9cf834c else 0x356ad4be
              else
                if x & 2 == 0 then if x & 1 == 0 then 0x55aa49e3 else 0x71e2d93b else if x & 1 == 0 then 0x7bf6f107 else 0x8c050a0f
            else
              if x & 0x04 == 0 then
                if x & 2 == 0 then if x & 1 == 0 then 0x72e4d531 else 0x880d1a17 else if x & 1 == 0 then 0xf6f1ff0e else 0x2a54a8fc
              else
                if x & 2 == 0 then if x & 1 == 0 then 0x3e7cf884 else 0x5ebc65d9 else if x & 1 == 0 then 0x274e9cd2 else 0x468c0589
          else
            if x & 0x08 == 0 then
              if x & 0x04 == 0 then
                if x & 2 == 0 then if x & 1 == 0 then 0x0c183028 else 0x65ca8943 else if x & 1 == 0 then 0x68d0bd6d else 0x61c2995b
              else
                if x & 2 == 0 then if x & 1 == 0 then 0x03060c0a else 0xc19f23bc else if x & 1 == 0 then 0x57ae41ef else 0xd6b17fce
            else
              if x & 0x04 == 0 then
                if x & 2 == 0 then if x & 1 == 0 then 0xd9af43ec else 0x58b07dcd else if x & 1 == 0 then 0xd8ad47ea else 0x66cc8549
              else
                if x & 2 == 0 then if x & 1 == 0 then 0xd7b37bc8 else 0x3a74e89c else if x & 1 == 0 then 0xc88d078a else 0x3c78f088
    else
      if x & 0x40 == 0 then
        if x & 0x20 == 0 then
          if x & 0x10 == 0 then
            if x & 0x08 == 0 then
              if x & 0x04 == 0 then
                if x & 2 == 0 then if x & 1 == 0 then 0xfae9cf26 else 0x96316253 else if x & 1 == 0 then 0xa753a6f5 else 0x982d5a77
              else
                if x & 2 == 0 then if x & 1 == 0 then 0xecc59752 else 0xb86ddab7 else if x & 1 == 0 then 0xc7933ba8 else 0xae4182c3
            else
              if x & 0x04 == 0 then
                if x & 2 == 0 then if x & 1 == 0 then 0x69d2b96b else 0x4b9631a7 else if x & 1 == 0 then 0xab4b96dd else 0xa94f9ed1
              else
                if x & 2 == 0 then if x & 1 == 0 then 0x67ce814f else 0x0a14283c else if x & 1 == 0 then 0x478e018f else 0xf2f9ef16
          else
            if x & 0x08 == 0 then
              if x & 0x04 == 0 then
                if x & 2 == 0 then if x & 1 == 0 then 0xb577ee99 else 0x224488cc else if x & 1 == 0 then 0xe5d7b364 else 0xeec19f5e
              else
                if x & 2 == 0 then if x & 1 == 0 then 0xbe61c2a3 else 0x2b56acfa else if x & 1 == 0 then 0x811f3e21 else 0x1224486c
            else
              if x & 0x04 == 0 then
                if x & 2 == 0 then if x & 1 == 0 then 0x831b362d else 0x1b366c5a else if x & 1 == 0 then 0x0e1c3824 else 0x23468cca
              else
                if x & 2 == 0 then if x & 1 == 0 then 0xf5f7f304 else 0x458a0983 else if x & 1 == 0 then 0x214284c6 else 0xce811f9e
        else
          if x & 0x10 == 0 then
            if x & 0x08 == 0 then
              if x & 0x04 == 0 then
                if x & 2 == 0 then if x & 1 == 0 then 0x499239ab else 0x2c58b0e8 else if x & 1 == 0 then 0xf9efc32c else 0xe6d1bf6e
              else
                if x & 2 == 0 then if x & 1 == 0 then 0xb671e293 else 0x2850a0f0 else if x & 1 == 0 then 0x172e5c72 else 0x8219322b
            else
              if x & 0x04 == 0 then
                if x & 2 == 0 then if x & 1 == 0 then 0x1a34685c else 0x8b0b161d else if x & 1 == 0 then 0xfee1df3e else 0x8a09121b
              else
                if x & 2 == 0 then if x & 1 == 0 then 0x09122436 else 0xc98f038c else if x & 1 == 0 then 0x87132635 else 0x4e9c25b9
          else
            if x & 0x08 == 0 then
              if x & 0x04 == 0 then
                if x & 2 == 0 then if x & 1 == 0 then 0xe1dfa37c else 0x2e5cb8e4 else if x & 1 == 0 then 0xe4d5b762 else 0xe0dda77a
              else
                if x & 2 == 0 then if x & 1 == 0 then 0xebcb8b40 else 0x903d7a47 else if x & 1 == 0 then 0xa455aaff else 0x1e3c7844
            else
              if x & 0x04 == 0 then
                if x & 2 == 0 then if x & 1 == 0 then 0x85172e39 else 0x60c09d5d else if x & 1 == 0 then 0x00000000 else 0x254a94de
              else
                if x & 2 == 0 then if x & 1 == 0 then 0xf4f5f702 else 0xf1ffe31c else if x & 1 == 0 then 0x94356a5f else 0x0b162c3a
      else
        if x & 0x20 == 0 then
          if x & 0x10 == 0 then
            if x & 0x08 == 0 then
              if x & 0x04 == 0 then
                if x & 2 == 0 then if x & 1 == 0 then 0xe7d3bb68 else 0x75eac923 else if x & 1 == 0 then 0xefc39b58 else 0x3468d0b8
              else
                if x & 2 == 0 then if x & 1 == 0 then 0x3162c4a6 else 0xd4b577c2 else if x & 1 == 0 then 0xd0bd67da else 0x86112233
            else
              if x & 0x04 == 0 then
                if x & 2 == 0 then if x & 1 == 0 then 0x7efce519 else 0xad478ec9 else if x & 1 == 0 then 0xfde7d334 else 0x2952a4f6
              else
                if x & 2 == 0 then if x & 1 == 0 then 0x3060c0a0 else 0x3b76ec9a else if x & 1 == 0 then 0x9f234665 else 0xf8edc72a
          else
            if x & 0x08 == 0 then
              if x & 0x04 == 0 then
                if x & 2 == 0 then if x & 1 == 0 then 0xc6913fae else 0x13264c6a else if x & 1 == 0 then 0x060c1814 else 0x050a141e
              else
                if x & 2 == 0 then if x & 1 == 0 then 0xc59733a4 else 0x11224466 else if x & 1 == 0 then 0x77eec12f else 0x7cf8ed15
            else
              if x & 0x04 == 0 then
                if x & 2 == 0 then if x & 1 == 0 then 0x7af4f501 else 0x78f0fd0d else if x & 1 == 0 then 0x366cd8b4 else 0x1c387048
              else
                if x & 2 == 0 then if x & 1 == 0 then 0x3972e496 else 0x59b279cb else if x & 1 == 0 then 0x18306050 else 0x56ac45e9
        else
          if x & 0x10 == 0 then
            if x & 0x08 == 0 then
              if x & 0x04 == 0 then
                if x & 2 == 0 then if x & 1 == 0 then 0xb37bf68d else 0xb07dfa87 else if x & 1 == 0 then 0x244890d8 else 0x204080c0
              else
                if x & 2 == 0 then if x & 1 == 0 then 0xb279f28b else 0x9239724b else if x & 1 == 0 then 0xa35bb6ed else 0xc09d27ba
            else
              if x & 0x04 == 0 then
                if x & 2 == 0 then if x & 1 == 0 then 0x44880d85 else 0x62c49551 else if x & 1 == 0 then 0x10204060 else 0xb475ea9f
              else
                if x & 2 == 0 then if x & 1 == 0 then 0x84152a3f else 0x43861197 else if x & 1 == 0 then 0x933b764d else 0xc2992fb6
          else
            if x & 0x08 == 0 then
              if x & 0x04 == 0 then
                if x & 2 == 0 then if x & 1 == 0 then 0x4a9435a1 else 0xbd67cea9 else if x & 1 == 0 then 0x8f030605 else 0x2d5ab4ee
              else
                if x & 2 == 0 then if x & 1 == 0 then 0xbc65caaf else 0x9c254a6f else if x & 1 == 0 then 0x6ad4b561 else 0x40801d9d
            else
              if x & 0x04 == 0 then
                if x & 2 == 0 then if x & 1 == 0 then 0xcf831b98 else 0xa259b2eb else if x & 1 == 0 then 0x801d3a27 else 0x4f9e21bf
              else
                if x & 2 == 0 then if x & 1 == 0 then 0x1f3e7c42 else 0xca890f86 else if x & 1 == 0 then 0xaa4992db else 0x42841591
  }

  function T1(x: bv8): bv32 {
    if x & 0x80 == 0 then
      if x & 0x40 == 0 then
        if x & 0x20 == 0 then
          if x & 0x10 == 0 then
            if x & 0x08 == 0 then
              if x & 0x04 == 0 then
                if x & 2 == 0 then if x & 1 == 0 then 0x69babbd2 else 0xa854e54d else if x & 1 == 0 then 0x5e2fe2bc else 0xe87425cd
              else
                if x & 2 == 0 then if x & 1 == 0 then 0xa653f751 else 0xbbd3d06b else if x & 1 == 0 then 0xb9d2d66f else 0x9a4db329
            else
              if x & 0x04 == 0 then
                if x & 2 == 0 then if x & 1 == 0 then 0xa050fd5d else 0x45accf8a else if x & 1 == 0 then 0x078d090e else 0x63bfa5c6
              else
                if x & 2 == 0 then if x & 1 == 0 then 0xe0703ddd else 0xa452f155 else if x & 1 == 0 then 0x299a7b52 else 0x984cb52d
          else
            if x & 0x08 == 0 then
              if x & 0x04 == 0 then
                if x & 2 == 0 then if x & 1 == 0 then 0xc9ea468f else 0xb7d5c473 else if x & 1 == 0 then 0x33975566 else 0xbfd1dc63
              else
                if x & 2 == 0 then if x & 1 == 0 then 0x6633aacc else 0xa251fb59 else if x & 1 == 0 then 0xb65bc771 else 0x51a6f3a2
            else
              if x & 0x04 == 0 then
                if x & 2 == 0 then if x & 1 == 0 then 0xa1defe5f else 0x9048ad3d else if x & 1 == 0 then 0x4da8d79a else 0x2f99715e
              else
                if x & 2 == 0 then if x & 1 == 0 then 0xabdbe04b else 0x6432acc8 else if x & 1 == 0 then 0x73b795e6 else 0xe5fc32d7
        else
          if x & 0x10 == 0 then
            if x & 0x08 == 0 then
              if x & 0x04 == 0 then
                if x & 2 == 0 then if x & 1 == 0 then 0xdbe370ab else 0x219e6342 else if x & 1 == 0 then 0x3f91417e else 0x2b9b7d56
              else
                if x & 2 == 0 then if x & 1 == 0 then 0xd9e276af else 0x6bbbbdd6 else if x & 1 == 0 then 0x82419b19 else 0xdc6e79a5
            else
              if x & 0x04 == 0 then
                if x & 2 == 0 then if x & 1 == 0 then 0x57a5f9ae else 0x8bcb800b else if x & 1 == 0 then 0xd66b67b1 else 0x3795596e
              else
                if x & 2 == 0 then if x & 1 == 0 then 0x5fa1e1be else 0xfbf310eb else if x & 1 == 0 then 0x7fb181fe else 0x04020c08
          else
            if x & 0x08 == 0 then
              if x & 0x04 == 0 then
                if x & 2 == 0 then if x & 1 == 0 then 0x85cc9217 else 0x95c4a237 else if x & 1 == 0 then 0x3a1d4e74 else 0x28147850
              else
                if x & 2 == 0 then if x & 1 == 0 then 0x9bc3b02b else 0xc6635791 else if x & 1 == 0 then 0xa9dae64f else 0xba5dd369
            else
              if x & 0x04 == 0 then
                if x & 2 == 0 then if x & 1 == 0 then 0xbe5fdf61 else 0xa5dcf257 else if x & 1 == 0 then 0xfa7d13e9 else 0x87cd9413
              else
                if x & 2 == 0 then if x & 1 == 0 then 0xfe7f1fe1 else 0xb45ac175 else if x & 1 == 0 then 0xd86c75ad else 0xb85cd56d
      else
        if x & 0x20 == 0 then
          if x & 0x10 == 0 then
            if x & 0x08 == 0 then
              if x & 0x04 == 0 then
                if x & 2 == 0 then if x & 1 == 0 then 0xf3f708fb else 0x4c26d498 else if x & 1 == 0 then 0xe3ff38db else 0xc7ed5493
              else
                if x & 2 == 0 then if x & 1 == 0 then 0xcde84a87 else 0x279d694e else if x & 1 == 0 then 0xde6f7fa1 else 0x018e0302
            else
              if x & 0x04 == 0 then
                if x & 2 == 0 then if x & 1 == 0 then 0x32195664 else 0x5da0e7ba else if x & 1 == 0 then 0xfdf01ae7 else 0x0f89111e
              else
                if x & 2 == 0 then if x & 1 == 0 then 0x1e0f223c else 0x0e07121c else if x & 1 == 0 then 0x43afc586 else 0xebfb20cb
          else
            if x & 0x08 == 0 then
              if x & 0x04 == 0 then
                if x & 2 == 0 then if x & 1 == 0 then 0x10083020 else 0x2a157e54 else if x & 1 == 0 then 0x1a0d2e34 else 0x08041810
              else
                if x & 2 == 0 then if x & 1 == 0 then 0x02010604 else 0xc864458d else if x & 1 == 0 then 0xa3dff85b else 0xec7629c5
            else
              if x & 0x04 == 0 then
                if x & 2 == 0 then if x & 1 == 0 then 0xf2790bf9 else 0xa7ddf453 else if x & 1 == 0 then 0x7a3d8ef4 else 0x2c167458
              else
                if x & 2 == 0 then if x & 1 == 0 then 0x7e3f82fc else 0x6e37b2dc else if x & 1 == 0 then 0xda6d73a9 else 0x703890e0
        else
          if x & 0x10 == 0 then
            if x & 0x08 == 0 then
              if x & 0x04 == 0 then
                if x & 2 == 0 then if x & 1 == 0 then 0x6fb9b1de else 0xe67337d1 else if x & 1 == 0 then 0xcfe94c83 else 0x6a35bed4
              else
                if x & 2 == 0 then if x & 1 == 0 then 0xaa55e349 else 0xe2713bd9 else if x & 1 == 0 then 0xf67b07f1 else 0x058c0f0a
            else
              if x & 0x04 == 0 then
                if x & 2 == 0 then if x & 1 == 0 then 0xe47231d5 else 0x0d88171a else if x & 1 == 0 then 0xf1f60eff else 0x542afca8
              else
                if x & 2 == 0 then if x & 1 == 0 then 0x7c3e84f8 else 0xbc5ed965 else if x & 1 == 0 then 0x4e27d29c else 0x8c468905
          else
            if x & 0x08 == 0 then
              if x & 0x04 == 0 then
                if x & 2 == 0 then if x & 1 == 0 then 0x180c2830 else 0xca654389 else if x & 1 == 0 then 0xd0686dbd else 0xc2615b99
              else
                if x & 2 == 0 then if x & 1 == 0 then 0x06030a0c else 0x9fc1bc23 else if x & 1 == 0 then 0xae57ef41 else 0xb1d6ce7f
            else
              if x & 0x04 == 0 then
                if x & 2 == 0 then if x & 1 == 0 then 0xafd9ec43 else 0xb058cd7d else if x & 1 == 0 then 0xadd8ea47 else 0xcc664985
              else
                if x & 2 == 0 then if x & 1 == 0 then 0xb3d7c87b else 0x743a9ce8 else if x & 1 == 0 then 0x8dc88a07 else 0x783c88f0
    else
      if x & 0x40 == 0 then
        if x & 0x20 == 0 then
          if x & 0x10 == 0 then
            if x & 0x08 == 0 then
              if x & 0x04 == 0 then
                if x & 2 == 0 then if x & 1 == 0 then 0xe9fa26cf else 0x31965362 else if x & 1 == 0 then 0x53a7f5a6 else 0x2d98775a
              else
                if x & 2 == 0 then if x & 1 == 0 then 0xc5ec5297 else 0x6db8b7da else if x & 1 == 0 then 0x93c7a83b else 0x41aec382
            else
              if x & 0x04 == 0 then
                if x & 2 == 0 then if x & 1 == 0 then 0xd2696bb9 else 0x964ba731 else if x & 1 == 0 then 0x4babdd96 else 0x4fa9d19e
              else
                if x & 2 == 0 then if x & 1 == 0 then 0xce674f81 else 0x140a3c28 else if x & 1 == 0 then 0x8e478f01 else 0xf9f216ef
          else
            if x & 0x08 == 0 then
              if x & 0x04 == 0 then
                if x & 2 == 0 then if x & 1 == 0 then 0x77b599ee else 0x4422cc88 else if x & 1 == 0 then 0xd7e564b3 else 0xc1ee5e9f
              else
                if x & 2 == 0 then if x & 1 == 0 then 0x61bea3c2 else 0x562bfaac else if x & 1 == 0 then 0x1f81213e else 0x24126c48
            else
              if x & 0x04 == 0 then
                if x & 2 == 0 then if x & 1 == 0 then 0x1b832d36 else 0x361b5a6c else if x & 1 == 0 then 0x1c0e2438 else 0x4623ca8c
              else
                if x & 2 == 0 then if x & 1 == 0 then 0xf7f504f3 else 0x8a458309 else if x & 1 == 0 then 0x4221c684 else 0x81ce9e1f
        else
          if x & 0x10 == 0 then
            if x & 0x08 == 0 then
              if x & 0x04 == 0 then
                if x & 2 == 0 then if x & 1 == 0 then 0x9249ab39 else 0x582ce8b0 else if x & 1 == 0 then 0xeff92cc3 else 0xd1e66ebf
              else
                if x & 2 == 0 then if x & 1 == 0 then 0x71b693e2 else 0x5028f0a0 else if x & 1 == 0 then 0x2e17725c else 0x19822b32
            else
              if x & 0x04 == 0 then
                if x & 2 == 0 then if x & 1 == 0 then 0x341a5c68 else 0x0b8b1d16 else if x & 1 == 0 then 0xe1fe3edf else 0x098a1b12
              else
                if x & 2 == 0 then if x & 1 == 0 then 0x12093624 else 0x8fc98c03 else if x & 1 == 0 then 0x13873526 else 0x9c4eb925
          else
            if x & 0x08 == 0 then
              if x & 0x04 == 0 then
                if x & 2 == 0 then if x & 1 == 0 then 0xdfe17ca3 else 0x5c2ee4b8 else if x & 1 == 0 then 0xd5e462b7 else 0xdde07aa7
              else
                if x & 2 == 0 then if x & 1 == 0 then 0xcbeb408b else 0x3d90477a else if x & 1 == 0 then 0x55a4ffaa else 0x3c1e4478
            else
              if x & 0x04 == 0 then
                if x & 2 == 0 then if x & 1 == 0 then 0x1785392e else 0xc0605d9d else if x & 1 == 0 then 0x00000000 else 0x4a25de94
              else
                if x & 2 == 0 then if x & 1 == 0 then 0xf5f402f7 else 0xfff11ce3 else if x & 1 == 0 then 0x35945f6a else 0x160b3a2c
      else
        if x & 0x20 == 0 then
          if x & 0x10 == 0 then
            if x & 0x08 == 0 then
              if x & 0x04 == 0 then
                if x & 2 == 0 then if x & 1 == 0 then 0xd3e768bb else 0xea7523c9 else if x & 1 == 0 then 0xc3ef589b else 0x6834b8d0
              else
                if x & 2 == 0 then if x & 1 == 0 then 0x6231a6c4 else 0xb5d4c277 else if x & 1 == 0 then 0xbdd0da67 else 0x11863322
            else
              if x & 0x04 == 0 then
                if x & 2 == 0 then if x & 1 == 0 then 0xfc7e19e5 else 0x47adc98e else if x & 1 == 0 then 0xe7fd34d3 else 0x5229f6a4
              else
                if x & 2 == 0 then if x & 1 == 0 then 0x6030a0c0 else 0x763b9aec else if x & 1 == 0 then 0x239f6546 else 0xedf82ac7
          else
            if x & 0x08 == 0 then
              if x & 0x04 == 0 then
                if x & 2 == 0 then if x & 1 == 0 then 0x91c6ae3f else 0x26136a4c else if x & 1 == 0 then 0x0c061418 else 0x0a051e14
              else
                if x & 2 == 0 then if x & 1 == 0 then 0x97c5a433 else 0x22116644 else if x & 1 == 0 then 0xee772fc1 else 0xf87c15ed
            else
              if x & 0x04 == 0 then
                if x & 2 == 0 then if x & 1 == 0 then 0xf47a01f5 else 0xf0780dfd else if x & 1 == 0 then 0x6c36b4d8 else 0x381c4870
              else
                if x & 2 == 0 then if x & 1 == 0 then 0x723996e4 else 0xb259cb79 else if x & 1 == 0 then 0x30185060 else 0xac56e945
        else
          if x & 0x10 == 0 then
            if x & 0x08 == 0 then
              if x & 0x04 == 0 then
                if x & 2 == 0 then if x & 1 == 0 then 0x7bb38df6 else 0x7db087fa else if x & 1 == 0 then 0x4824d890 else 0x4020c080
              else
                if x & 2 == 0 then if x & 1 == 0 then 0x79b28bf2 else 0x39924b72 else if x & 1 == 0 then 0x5ba3edb6 else 0x9dc0ba27
            else
              if x & 0x04 == 0 then
                if x & 2 == 0 then if x & 1 == 0 then 0x8844850d else 0xc4625195 else if x & 1 == 0 then 0x20106040 else 0x75b49fea
              else
                if x & 2 == 0 then if x & 1 == 0 then 0x15843f2a else 0x86439711 else if x & 1 == 0 then 0x3b934d76 else 0x99c2b62f
          else
            if x & 0x08 == 0 then
              if x & 0x04 == 0 then
                if x & 2 == 0 then if x & 1 == 0 then 0x944aa135 else 0x67bda9ce else if x & 1 == 0 then 0x038f0506 else 0x5a2deeb4
              else
                if x & 2 == 0 then if x & 1 == 0 then 0x65bcafca else 0x259c6f4a else if x & 1 == 0 then 0xd46a61b5 else 0x80409d1d
            else
              if x & 0x04 == 0 then
                if x & 2 == 0 then if x & 1 == 0 then 0x83cf981b else 0x59a2ebb2 else if x & 1 == 0 then 0x1d80273a else 0x9e4fbf21
              else
                if x & 2 == 0 then if x & 1 == 0 then 0x3e1f427c else 0x89ca860f else if x & 1 == 0 then 0x49aadb92 else 0x84429115
  }

  function T2(x: bv8): bv32 {
    if x & 0x80 == 0 then
      if x & 0x40 == 0 then
        if x & 0x20 == 0 then
          if x & 0x10 == 0 then
            if x & 0x08 == 0 then
              if x & 0x04 == 0 then
                if x & 2 == 0 then if x & 1 == 0 then 0xd2bbba69 else 0x4de554a8 else if x & 1 == 0 then 0xbce22f5e else 0xcd2574e8
              else
                if x & 2 == 0 then if x & 1 == 0 then 0x51f753a6 else 0x6bd0d3bb else if x & 1 == 0 then 0x6fd6d2b9 else 0x29b34d9a
            else
              if x & 0x04 == 0 then
                if x & 2 == 0 then if x & 1 == 0 then 0x5dfd50a0 else 0x8acfac45 else if x & 1 == 0 then 0x0e098d07 else 0xc6a5bf63
              else
                if x & 2 == 0 then if x & 1 == 0 then 0xdd3d70e0 else 0x55f152a4 else if x & 1 == 0 then 0x527b9a29 else 0x2db54c98
          else
            if x & 0x08 == 0 then
              if x & 0x04 == 0 then
                if x & 2 == 0 then if x & 1 == 0 then 0x8f46eac9 else 0x73c4d5b7 else if x & 1 == 0 then 0x66559733 else 0x63dcd1bf
              else
                if x & 2 == 0 then if x & 1 == 0 then 0xccaa3366 else 0x59fb51a2 else if x & 1 == 0 then 0x71c75bb6 else 0xa2f3a651
            else
              if x & 0x04 == 0 then
                if x & 2 == 0 then if x & 1 == 0 then 0x5ffedea1 else 0x3dad4890 else if x & 1 == 0 then 0x9ad7a84d else 0x5e71992f
              else
                if x & 2 == 0 then if x & 1 == 0 then 0x4be0dbab else 0xc8ac3264 else if x & 1 == 0 then 0xe695b773 else 0xd732fce5
        else
          if x & 0x10 == 0 then
            if x & 0x08 == 0 then
              if x & 0x04 == 0 then
                if x & 2 == 0 then if x & 1 == 0 then 0xab70e3db else 0x42639e21 else if x & 1 == 0 then 0x7e41913f else 0x567d9b2b
              else
                if x & 2 == 0 then if x & 1 == 0 then 0xaf76e2d9 else 0xd6bdbb6b else if x & 1 == 0 then 0x199b4182 else 0xa5796edc
            else
              if x & 0x04 == 0 then
                if x & 2 == 0 then if x & 1 == 0 then 0xaef9a557 else 0x0b80cb8b else if x & 1 == 0 then 0xb1676bd6 else 0x6e599537
              else
                if x & 2 == 0 then if x & 1 == 0 then 0xbee1a15f else 0xeb10f3fb else if x & 1 == 0 then 0xfe81b17f else 0x080c0204
          else
            if x & 0x08 == 0 then
              if x & 0x04 == 0 then
                if x & 2 == 0 then if x & 1 == 0 then 0x1792cc85 else 0x37a2c495 else if x & 1 == 0 then 0x744e1d3a else 0x50781428
              else
                if x & 2 == 0 then if x & 1 == 0 then 0x2bb0c39b else 0x915763c6 else if x & 1 == 0 then 0x4fe6daa9 else 0x69d35dba
            else
              if x & 0x04 == 0 then
                if x & 2 == 0 then if x & 1 == 0 then 0x61df5fbe else 0x57f2dca5 else if x & 1 == 0 then 0xe9137dfa else 0x1394cd87
              else
                if x & 2 == 0 then if x & 1 == 0 then 0xe11f7ffe else 0x75c15ab4 else if x & 1 == 0 then 0xad756cd8 else 0x6dd55cb8
      else
        if x & 0x20 == 0 then
          if x & 0x10 == 0 then
            if x & 0x08 == 0 then
              if x & 0x04 == 0 then
                if x & 2 == 0 then if x & 1 == 0 then 0xfb08f7f3 else 0x98d4264c else if x & 1 == 0 then 0xdb38ffe3 else 0x9354edc7
              else
                if x & 2 == 0 then if x & 1 == 0 then 0x874ae8cd else 0x4e699d27 else if x & 1 == 0 then 0xa17f6fde else 0x02038e01
            else
              if x & 0x04 == 0 then
                if x & 2 == 0 then if x & 1 == 0 then 0x64561932 else 0xbae7a05d else if x & 1 == 0 then 0xe71af0fd else 0x1e11890f
              else
                if x & 2 == 0 then if x & 1 == 0 then 0x3c220f1e else 0x1c12070e else if x & 1 == 0 then 0x86c5af43 else 0xcb20fbeb
          else
            if x & 0x08 == 0 then
              if x & 0x04 == 0 then
                if x & 2 == 0 then if x & 1 == 0 then 0x20300810 else 0x547e152a else if x & 1 == 0 then 0x342e0d1a else 0x10180408
              else
                if x & 2 == 0 then if x & 1 == 0 then 0x04060102 else 0x8d4564c8 else if x & 1 == 0 then 0x5bf8dfa3 else 0xc52976ec
            else
              if x & 0x04 == 0 then
                if x & 2 == 0 then if x & 1 == 0 then 0xf90b79f2 else 0x53f4dda7 else if x & 1 == 0 then 0xf48e3d7a else 0x5874162c
              else
                if x & 2 == 0 then if x & 1 == 0 then 0xfc823f7e else 0xdcb2376e else if x & 1 == 0 then 0xa9736dda else 0xe0903870
        else
          if x & 0x10 == 0 then
            if x & 0x08 == 0 then
              if x & 0x04 == 0 then
                if x & 2 == 0 then if x & 1 == 0 then 0xdeb1b96f else 0xd13773e6 else if x & 1 == 0 then 0x834ce9cf else 0xd4be356a
              else
                if x & 2 == 0 then if x & 1 == 0 then 0x49e355aa else 0xd93b71e2 else if x & 1 == 0 then 0xf1077bf6 else 0x0a0f8c05
            else
              if x & 0x04 == 0 then
                if x & 2 == 0 then if x & 1 == 0 then 0xd53172e4 else 0x1a17880d else if x & 1 == 0 then 0xff0ef6f1 else 0xa8fc2a54
              else
                if x & 2 == 0 then if x & 1 == 0 then 0xf8843e7c else 0x65d95ebc else if x & 1 == 0 then 0x9cd2274e else 0x0589468c
          else
            if x & 0x08 == 0 then
              if x & 0x04 == 0 then
                if x & 2 == 0 then if x & 1 == 0 then 0x30280c18 else 0x894365ca else if x & 1 == 0 then 0xbd6d68d0 else 0x995b61c2
              else
                if x & 2 == 0 then if x & 1 == 0 then 0x0c0a0306 else 0x23bcc19f else if x & 1 == 0 then 0x41ef57ae else 0x7fced6b1
            else
              if x & 0x04 == 0 then
                if x & 2 == 0 then if x & 1 == 0 then 0x43ecd9af else 0x7dcd58b0 else if x & 1 == 0 then 0x47ead8ad else 0x854966cc
              else
                if x & 2 == 0 then if x & 1 == 0 then 0x7bc8d7b3 else 0xe89c3a74 else if x & 1 == 0 then 0x078ac88d else 0xf0883c78
    else
      if x & 0x40 == 0 then
        if x & 0x20 == 0 then
          if x & 0x10 == 0 then
            if x & 0x08 == 0 then
              if x & 0x04 == 0 then
                if x & 2 == 0 then if x & 1 == 0 then 0xcf26fae9 else 0x62539631 else if x & 1 == 0 then 0xa6f5a753 else 0x5a77982d
              else
                if x & 2 == 0 then if x & 1 == 0 then 0x9752ecc5 else 0xdab7b86d else if x & 1 == 0 then 0x3ba8c793 else 0x82c3ae41
            else
              if x & 0x04 == 0 then
                if x & 2 == 0 then if x & 1 == 0 then 0xb96b69d2 else 0x31a74b96 else if x & 1 == 0 then 0x96ddab4b else 0x9ed1a94f
              else
                if x & 2 == 0 then if x & 1 == 0 then 0x814f67ce else 0x283c0a14 else if x & 1 == 0 then 0x018f478e else 0xef16f2f9
          else
            if x & 0x08 == 0 then
              if x & 0x04 == 0 then
                if x & 2 == 0 then if x & 1 == 0 then 0xee99b577 else 0x88cc2244 else if x & 1 == 0 then 0xb364e5d7 else 0x9f5eeec1
              else
                if x & 2 == 0 then if x & 1 == 0 then 0xc2a3be61 else 0xacfa2b56 else if x & 1 == 0 then 0x3e21811f else 0x486c1224
            else
              if x & 0x04 == 0 then
                if x & 2 == 0 then if x & 1 == 0 then 0x362d831b else 0x6c5a1b36 else if x & 1 == 0 then 0x38240e1c else 0x8cca2346
              else
                if x & 2 == 0 then if x & 1 == 0 then 0xf304f5f7 else 0x0983458a else if x & 1 == 0 then 0x84c62142 else 0x1f9ece81
        else
          if x & 0x10 == 0 then
            if x & 0x08 == 0 then
              if x & 0x04 == 0 then
                if x & 2 == 0 then if x & 1 == 0 then 0x39ab4992 else 0xb0e82c58 else if x & 1 == 0 then 0xc32cf9ef else 0xbf6ee6d1
              else
                if x & 2 == 0 then if x & 1 == 0 then 0xe293b671 else 0xa0f02850 else if x & 1 == 0 then 0x5c72172e else 0x322b8219
            else
              if x & 0x04 == 0 then
                if x & 2 == 0 then if x & 1 == 0 then 0x685c1a34 else 0x161d8b0b else if x & 1 == 0 then 0xdf3efee1 else 0x121b8a09
              else
                if x & 2 == 0 then if x & 1 == 0 then 0x24360912 else 0x038cc98f else if x & 1 == 0 then 0x26358713 else 0x25b94e9c
          else
            if x & 0x08 == 0 then
              if x & 0x04 == 0 then
                if x & 2 == 0 then if x & 1 == 0 then 0xa37ce1df else 0xb8e42e5c else if x & 1 == 0 then 0xb762e4d5 else 0xa77ae0dd
              else
                if x & 2 == 0 then if x & 1 == 0 then 0x8b40ebcb else 0x7a47903d else if x & 1 == 0 then 0xaaffa455 else 0x78441e3c
            else
              if x & 0x04 == 0 then
                if x & 2 == 0 then if x & 1 == 0 then 0x2e398517 else 0x9d5d60c0 else if x & 1 == 0 then 0x00000000 else 0x94de254a
              else
                if x & 2 == 0 then if x & 1 == 0 then 0xf702f4f5 else 0xe31cf1ff else if x & 1 == 0 then 0x6a5f9435 else 0x2c3a0b16
      else
        if x & 0x20 == 0 then
          if x & 0x10 == 0 then
            if x & 0x08 == 0 then
              if x & 0x04 == 0 then
                if x & 2 == 0 then if x & 1 == 0 then 0xbb68e7d3 else 0xc92375ea else if x & 1 == 0 then 0x9b58efc3 else 0xd0b83468
              else
                if x & 2 == 0 then if x & 1 == 0 then 0xc4a63162 else 0x77c2d4b5 else if x & 1 == 0 then 0x67dad0bd else 0x22338611
            else
              if x & 0x04 == 0 then
                if x & 2 == 0 then if x & 1 == 0 then 0xe5197efc else 0x8ec9ad47 else if x & 1 == 0 then 0xd334fde7 else 0xa4f62952
              else
                if x & 2 == 0 then if x & 1 == 0 then 0xc0a03060 else 0xec9a3b76 else if x & 1 == 0 then 0x46659f23 else 0xc72af8ed
          else
            if x & 0x08 == 0 then
              if x & 0x04 == 0 then
                if x & 2 == 0 then if x & 1 == 0 then 0x3faec691 else 0x4c6a1326 else if x & 1 == 0 then 0x1814060c else 0x141e050a
              else
                if x & 2 == 0 then if x & 1 == 0 then 0x33a4c597 else 0x44661122 else if x & 1 == 0 then 0xc12f77ee else 0xed157cf8
            else
              if x & 0x04 == 0 then
                if x & 2 == 0 then if x & 1 == 0 then 0xf5017af4 else 0xfd0d78f0 else if x & 1 == 0 then 0xd8b4366c else 0x70481c38
              else
                if x & 2 == 0 then if x & 1 == 0 then 0xe4963972 else 0x79cb59b2 else if x & 1 == 0 then 0x60501830 else 0x45e956ac
        else
          if x & 0x10 == 0 then
            if x & 0x08 == 0 then
              if x & 0x04 == 0 then
                if x & 2 == 0 then if x & 1 == 0 then 0xf68db37b else 0xfa87b07d else if x & 1 == 0 then 0x90d82448 else 0x80c02040
              else
                if x & 2 == 0 then if x & 1 == 0 then 0xf28bb279 else 0x724b9239 else if x & 1 == 0 then 0xb6eda35b else 0x27bac09d
            else
              if x & 0x04 == 0 then
                if x & 2 == 0 then if x & 1 == 0 then 0x0d854488 else 0x955162c4 else if x & 1 == 0 then 0x40601020 else 0xea9fb475
              else
                if x & 2 == 0 then if x & 1 == 0 then 0x2a3f8415 else 0x11974386 else if x & 1 == 0 then 0x764d933b else 0x2fb6c299
          else
            if x & 0x08 == 0 then
              if x & 0x04 == 0 then
                if x & 2 == 0 then if x & 1 == 0 then 0x35a14a94 else 0xcea9bd67 else if x & 1 == 0 then 0x06058f03 else 0xb4ee2d5a
              else
                if x & 2 == 0 then if x & 1 == 0 then 0xcaafbc65 else 0x4a6f9c25 else if x & 1 == 0 then 0xb5616ad4 else 0x1d9d4080
            else
              if x & 0x04 == 0 then
                if x & 2 == 0 then if x & 1 == 0 then 0x1b98cf83 else 0xb2eba259 else if x & 1 == 0 then 0x3a27801d else 0x21bf4f9e
              else
                if x & 2 == 0 then if x & 1 == 0 then 0x7c421f3e else 0x0f86ca89 else if x & 1 == 0 then 0x92dbaa49 else 0x15914284
  }

  function T3(x: bv8): bv32 {
    if x & 0x80 == 0 then
      if x & 0x40 == 0 then
        if x & 0x20 == 0 then
          if x & 0x10 == 0 then
            if x & 0x08 == 0 then
              if x & 0x04 == 0 then
                if x & 2 == 0 then if x & 1 == 0 then 0xbbd269ba else 0xe54da854 else if x & 1 == 0 then 0xe2bc5e2f else 0x25cde874
              else
                if x & 2 == 0 then if x & 1 == 0 then 0xf751a653 else 0xd06bbbd3 else if x & 1 == 0 then 0xd66fb9d2 else 0xb3299a4d
            else
              if x & 0x04 == 0 then
                if x & 2 == 0 then if x & 1 == 0 then 0xfd5da050 else 0xcf8a45ac else if x & 1 == 0 then 0x090e078d else 0xa5c663bf
              else
                if x & 2 == 0 then if x & 1 == 0 then 0x3ddde070 else 0xf155a452 else if x & 1 == 0 then 0x7b52299a else 0xb52d984c
          else
            if x & 0x08 == 0 then
              if x & 0x04 == 0 then
                if x & 2 == 0 then if x & 1 == 0 then 0x468fc9ea else 0xc473b7d5 else if x & 1 == 0 then 0x55663397 else 0xdc63bfd1
              else
                if x & 2 == 0 then if x & 1 == 0 then 0xaacc6633 else 0xfb59a251 else if x & 1 == 0 then 0xc771b65b else 0xf3a251a6
            else
              if x & 0x04 == 0 then
                if x & 2 == 0 then if x & 1 == 0 then 0xfe5fa1de else 0xad3d9048 else if x & 1 == 0 then 0xd79a4da8 else 0x715e2f99
              else
                if x & 2 == 0 then if x & 1 == 0 then 0xe04babdb else 0xacc86432 else if x & 1 == 0 then 0x95e673b7 else 0x32d7e5fc
        else
          if x & 0x10 == 0 then
            if x & 0x08 == 0 then
              if x & 0x04 == 0 then
                if x & 2 == 0 then if x & 1 == 0 then 0x70abdbe3 else 0x6342219e else if x & 1 == 0 then 0x417e3f91 else 0x7d562b9b
              else
                if x & 2 == 0 then if x & 1 == 0 then 0x76afd9e2 else 0xbdd66bbb else if x & 1 == 0 then 0x9b198241 else 0x79a5dc6e
            else
              if x & 0x04 == 0 then
                if x & 2 == 0 then if x & 1 == 0 then 0xf9ae57a5 else 0x800b8bcb else if x & 1 == 0 then 0x67b1d66b else 0x596e3795
              else
                if x & 2 == 0 then if x & 1 == 0 then 0xe1be5fa1 else 0x10ebfbf3 else if x & 1 == 0 then 0x81fe7fb1 else 0x0c080402
          else
            if x & 0x08 == 0 then
              if x & 0x04 == 0 then
                if x & 2 == 0 then if x & 1 == 0 then 0x921785cc else 0xa23795c4 else if x & 1 == 0 then 0x4e743a1d else 0x78502814
              else
                if x & 2 == 0 then if x & 1 == 0 then 0xb02b9bc3 else 0x5791c663 else if x & 1 == 0 then 0xe64fa9da else 0xd369ba5d
            else
              if x & 0x04 == 0 then
                if x & 2 == 0 then if x & 1 == 0 then 0xdf61be5f else 0xf257a5dc else if x & 1 == 0 then 0x13e9fa7d else 0x941387cd
              else
                if x & 2 == 0 then if x & 1 == 0 then 0x1fe1fe7f else 0xc175b45a else if x & 1 == 0 then 0x75add86c else 0xd56db85c
      else
        if x & 0x20 == 0 then
          if x & 0x10 == 0 then
            if x & 0x08 == 0 then
              if x & 0x04 == 0 then
                if x & 2 == 0 then if x & 1 == 0 then 0x08fbf3f7 else 0xd4984c26 else if x & 1 == 0 then 0x38dbe3ff else 0x5493c7ed
              else
                if x & 2 == 0 then if x & 1 == 0 then 0x4a87cde8 else 0x694e279d else if x & 1 == 0 then 0x7fa1de6f else 0x0302018e
            else
              if x & 0x04 == 0 then
                if x & 2 == 0 then if x & 1 == 0 then 0x56643219 else 0xe7ba5da0 else if x & 1 == 0 then 0x1ae7fdf0 else 0x111e0f89
              else
                if x & 2 == 0 then if x & 1 == 0 then 0x223c1e0f else 0x121c0e07 else if x & 1 == 0 then 0xc58643af else 0x20cbebfb
          else
            if x & 0x08 == 0 then
              if x & 0x04 == 0 then
                if x & 2 == 0 then if x & 1 == 0 then 0x30201008 else 0x7e542a15 else if x & 1 == 0 then 0x2e341a0d else 0x18100804
              else
                if x & 2 == 0 then if x & 1 == 0 then 0x06040201 else 0x458dc864 else if x & 1 == 0 then 0xf85ba3df else 0x29c5ec76
            else
              if x & 0x04 == 0 then
                if x & 2 == 0 then if x & 1 == 0 then 0x0bf9f279 else 0xf453a7dd else if x & 1 == 0 then 0x8ef47a3d else 0x74582c16
              else
                if x & 2 == 0 then if x & 1 == 0 then 0x82fc7e3f else 0xb2dc6e37 else if x & 1 == 0 then 0x73a9da6d else 0x90e07038
        else
          if x & 0x10 == 0 then
            if x & 0x08 == 0 then
              if x & 0x04 == 0 then
                if x & 2 == 0 then if x & 1 == 0 then 0xb1de6fb9 else 0x37d1e673 else if x & 1 == 0 then 0x4c83cfe9 else 0xbed46a35
              else
                if x & 2 == 0 then if x & 1 == 0 then 0xe349aa55 else 0x3bd9e271 else if x & 1 == 0 then 0x07f1f67b else 0x0f0a058c
            else
              if x & 0x04 == 0 then
                if x & 2 == 0 then if x & 1 == 0 then 0x31d5e472 else 0x171a0d88 else if x & 1 == 0 then 0x0efff1f6 else 0xfca8542a
              else
                if x & 2 == 0 then if x & 1 == 0 then 0x84f87c3e else 0xd965bc5e else if x & 1 == 0 then 0xd29c4e27 else 0x89058c46
          else
            if x & 0x08 == 0 then
              if x & 0x04 == 0 then
                if x & 2 == 0 then if x & 1 == 0 then 0x2830180c else 0x4389ca65 else if x & 1 == 0 then 0x6dbdd068 else 0x5b99c261
              else
                if x & 2 == 0 then if x & 1 == 0 then 0x0a0c0603 else 0xbc239fc1 else if x & 1 == 0 then 0xef41ae57 else 0xce7fb1d6
            else
              if x & 0x04 == 0 then
                if x & 2 == 0 then if x & 1 == 0 then 0xec43afd9 else 0xcd7db058 else if x & 1 == 0 then 0xea47add8 else 0x4985cc66
              else
                if x & 2 == 0 then if x & 1 == 0 then 0xc87bb3d7 else 0x9ce8743a else if x & 1 == 0 then 0x8a078dc8 else 0x88f0783c
    else
      if x & 0x40 == 0 then
        if x & 0x20 == 0 then
          if x & 0x10 == 0 then
            if x & 0x08 == 0 then
              if x & 0x04 == 0 then
                if x & 2 == 0 then if x & 1 == 0 then 0x26cfe9fa else 0x53623196 else if x & 1 == 0 then 0xf5a653a7 else 0x775a2d98
              else
                if x & 2 == 0 then if x & 1 == 0 then 0x5297c5ec else 0xb7da6db8 else if x & 1 == 0 then 0xa83b93c7 else 0xc38241ae
            else
              if x & 0x04 == 0 then
                if x & 2 == 0 then if x & 1 == 0 then 0x6bb9d269 else 0xa731964b else if x & 1 == 0 then 0xdd964bab else 0xd19e4fa9
              else
                if x & 2 == 0 then if x & 1 == 0 then 0x4f81ce67 else 0x3c28140a else if x & 1 == 0 then 0x8f018e47 else 0x16eff9f2
          else
            if x & 0x08 == 0 then
              if x & 0x04 == 0 then
                if x & 2 == 0 then if x & 1 == 0 then 0x99ee77b5 else 0xcc884422 else if x & 1 == 0 then 0x64b3d7e5 else 0x5e9fc1ee
              else
                if x & 2 == 0 then if x & 1 == 0 then 0xa3c261be else 0xfaac562b else if x & 1 == 0 then 0x213e1f81 else 0x6c482412
            else
              if x & 0x04 == 0 then
                if x & 2 == 0 then if x & 1 == 0 then 0x2d361b83 else 0x5a6c361b else if x & 1 == 0 then 0x24381c0e else 0xca8c4623
              else
                if x & 2 == 0 then if x & 1 == 0 then 0x04f3f7f5 else 0x83098a45 else if x & 1 == 0 then 0xc6844221 else 0x9e1f81ce
        else
          if x & 0x10 == 0 then
            if x & 0x08 == 0 then
              if x & 0x04 == 0 then
                if x & 2 == 0 then if x & 1 == 0 then 0xab399249 else 0xe8b0582c else if x & 1 == 0 then 0x2cc3eff9 else 0x6ebfd1e6
              else
                if x & 2 == 0 then if x & 1 == 0 then 0x93e271b6 else 0xf0a05028 else if x & 1 == 0 then 0x725c2e17 else 0x2b321982
            else
              if x & 0x04 == 0 then
                if x & 2 == 0 then if x & 1 == 0 then 0x5c68341a else 0x1d160b8b else if x & 1 == 0 then 0x3edfe1fe else 0x1b12098a
              else
                if x & 2 == 0 then if x & 1 == 0 then 0x36241209 else 0x8c038fc9 else if x & 1 == 0 then 0x35261387 else 0xb9259c4e
          else
            if x & 0x08 == 0 then
              if x & 0x04 == 0 then
                if x & 2 == 0 then if x & 1 == 0 then 0x7ca3dfe1 else 0xe4b85c2e else if x & 1 == 0 then 0x62b7d5e4 else 0x7aa7dde0
              else
                if x & 2 == 0 then if x & 1 == 0 then 0x408bcbeb else 0x477a3d90 else if x & 1 == 0 then 0xffaa55a4 else 0x44783c1e
            else
              if x & 0x04 == 0 then
                if x & 2 == 0 then if x & 1 == 0 then 0x392e1785 else 0x5d9dc060 else if x & 1 == 0 then 0x00000000 else 0xde944a25
              else
                if x & 2 == 0 then if x & 1 == 0 then 0x02f7f5f4 else 0x1ce3fff1 else if x & 1 == 0 then 0x5f6a3594 else 0x3a2c160b
      else
        if x & 0x20 == 0 then
          if x & 0x10 == 0 then
            if x & 0x08 == 0 then
              if x & 0x04 == 0 then
                if x & 2 == 0 then if x & 1 == 0 then 0x68bbd3e7 else 0x23c9ea75 else if x & 1 == 0 then 0x589bc3ef else 0xb8d06834
              else
                if x & 2 == 0 then if x & 1 == 0 then 0xa6c46231 else 0xc277b5d4 else if x & 1 == 0 then 0xda67bdd0 else 0x33221186
            else
              if x & 0x04 == 0 then
                if x & 2 == 0 then if x & 1 == 0 then 0x19e5fc7e else 0xc98e47ad else if x & 1 == 0 then 0x34d3e7fd else 0xf6a45229
              else
                if x & 2 == 0 then if x & 1 == 0 then 0xa0c06030 else 0x9aec763b else if x & 1 == 0 then 0x6546239f else 0x2ac7edf8
          else
            if x & 0x08 == 0 then
              if x & 0x04 == 0 then
                if x & 2 == 0 then if x & 1 == 0 then 0xae3f91c6 else 0x6a4c2613 else if x & 1 == 0 then 0x14180c06 else 0x1e140a05
              else
                if x & 2 == 0 then if x & 1 == 0 then 0xa43397c5 else 0x66442211 else if x & 1 == 0 then 0x2fc1ee77 else 0x15edf87c
            else
              if x & 0x04 == 0 then
                if x & 2 == 0 then if x & 1 == 0 then 0x01f5f47a else 0x0dfdf078 else if x & 1 == 0 then 0xb4d86c36 else 0x4870381c
              else
                if x & 2 == 0 then if x & 1 == 0 then 0x96e47239 else 0xcb79b259 else if x & 1 == 0 then 0x50603018 else 0xe945ac56
        else
          if x & 0x10 == 0 then
            if x & 0x08 == 0 then
              if x & 0x04 == 0 then
                if x & 2 == 0 then if x & 1 == 0 then 0x8df67bb3 else 0x87fa7db0 else if x & 1 == 0 then 0xd8904824 else 0xc0804020
              else
                if x & 2 == 0 then if x & 1 == 0 then 0x8bf279b2 else 0x4b723992 else if x & 1 == 0 then 0xedb65ba3 else 0xba279dc0
            else
              if x & 0x04 == 0 then
                if x & 2 == 0 then if x & 1 == 0 then 0x850d8844 else 0x5195c462 else if x & 1 == 0 then 0x60402010 else 0x9fea75b4
              else
                if x & 2 == 0 then if x & 1 == 0 then 0x3f2a1584 else 0x97118643 else if x & 1 == 0 then 0x4d763b93 else 0xb62f99c2
          else
            if x & 0x08 == 0 then
              if x & 0x04 == 0 then
                if x & 2 == 0 then if x & 1 == 0 then 0xa135944a else 0xa9ce67bd else if x & 1 == 0 then 0x0506038f else 0xeeb45a2d
              else
                if x & 2 == 0 then if x & 1 == 0 then 0xafca65bc else 0x6f4a259c else if x & 1 == 0 then 0x61b5d46a else 0x9d1d8040
            else
              if x & 0x04 == 0 then
                if x & 2 == 0 then if x & 1 == 0 then 0x981b83cf else 0xebb259a2 else if x & 1 == 0 then 0x273a1d80 else 0xbf219e4f
              else
                if x & 2 == 0 then if x & 1 == 0 then 0x427c3e1f else 0x860f89ca else if x & 1 == 0 then 0xdb9249aa else 0x91158442
  }

  function T4(x: bv8): bv32 {
    if x & 0x80 == 0 then
      if x & 0x40 == 0 then
        if x & 0x20 == 0 then
          if x & 0x10 == 0 then
            if x & 0x08 == 0 then
              if x & 0x04 == 0 then
                if x & 2 == 0 then if x & 1 == 0 then 0xbabababa else 0x54545454 else if x & 1 == 0 then 0x2f2f2f2f else 0x74747474
              else
                if x & 2 == 0 then if x & 1 == 0 then 0x53535353 else 0xd3d3d3d3 else if x & 1 == 0 then 0xd2d2d2d2 else 0x4d4d4d4d
            else
              if x & 0x04 == 0 then
                if x & 2 == 0 then if x & 1 == 0 then 0x50505050 else 0xacacacac else if x & 1 == 0 then 0x8d8d8d8d else 0xbfbfbfbf
              else
                if x & 2 == 0 then if x & 1 == 0 then 0x70707070 else 0x52525252 else if x & 1 == 0 then 0x9a9a9a9a else 0x4c4c4c4c
          else
            if x & 0x08 == 0 then
              if x & 0x04 == 0 then
                if x & 2 == 0 then if x & 1 == 0 then 0xeaeaeaea else 0xd5d5d5d5 else if x & 1 == 0 then 0x97979797 else 0xd1d1d1d1
              else
                if x & 2 == 0 then if x & 1 == 0 then 0x33333333 else 0x51515151 else if x & 1 == 0 then 0x5b5b5b5b else 0xa6a6a6a6
            else
              if x & 0x04 == 0 then
                if x & 2 == 0 then if x & 1 == 0 then 0xdededede else 0x48484848 else if x & 1 == 0 then 0xa8a8a8a8 else 0x99999999
              else
                if x & 2 == 0 then if x & 1 == 0 then 0xdbdbdbdb else 0x32323232 else if x & 1 == 0 then 0xb7b7b7b7 else 0xfcfcfcfc
        else
          if x & 0x10 == 0 then
            if x & 0x08 == 0 then
              if x & 0x04 == 0 then
                if x & 2 == 0 then if x & 1 == 0 then 0xe3e3e3e3 else 0x9e9e9e9e else if x & 1 == 0 then 0x91919191 else 0x9b9b9b9b
              else
                if x & 2 == 0 then if x & 1 == 0 then 0xe2e2e2e2 else 0xbbbbbbbb else if x & 1 == 0 then 0x41414141 else 0x6e6e6e6e
            else
              if x & 0x04 == 0 then
                if x & 2 == 0 then if x & 1 == 0 then 0xa5a5a5a5 else 0xcbcbcbcb else if x & 1 == 0 then 0x6b6b6b6b else 0x95959595
              else
                if x & 2 == 0 then if x & 1 == 0 then 0xa1a1a1a1 else 0xf3f3f3f3 else if x & 1 == 0 then 0xb1b1b1b1 else 0x02020202
          else
            if x & 0x08 == 0 then
              if x & 0x04 == 0 then
                if x & 2 == 0 then if x & 1 == 0 then 0xcccccccc else 0xc4c4c4c4 else if x & 1 == 0 then 0x1d1d1d1d else 0x14141414
              else
                if x & 2 == 0 then if x & 1 == 0 then 0xc3c3c3c3 else 0x63636363 else if x & 1 == 0 then 0xdadadada else 0x5d5d5d5d
            else
              if x & 0x04 == 0 then
                if x & 2 == 0 then if x & 1 == 0 then 0x5f5f5f5f else 0xdcdcdcdc else if x & 1 == 0 then 0x7d7d7d7d else 0xcdcdcdcd
              else
                if x & 2 == 0 then if x & 1 == 0 then 0x7f7f7f7f else 0x5a5a5a5a else if x & 1 == 0 then 0x6c6c6c6c else 0x5c5c5c5c
      else
        if x & 0x20 == 0 then
          if x & 0x10 == 0 then
            if x & 0x08 == 0 then
              if x & 0x04 == 0 then
                if x & 2 == 0 then if x & 1 == 0 then 0xf7f7f7f7 else 0x26262626 else if x & 1 == 0 then 0xffffffff else 0xedededed
              else
                if x & 2 == 0 then if x & 1 == 0 then 0xe8e8e8e8 else 0x9d9d9d9d else if x & 1 == 0 then 0x6f6f6f6f else 0x8e8e8e8e
            else
              if x & 0x04 == 0 then
                if x & 2 == 0 then if x & 1 == 0 then 0x19191919 else 0xa0a0a0a0 else if x & 1 == 0 then 0xf0f0f0f0 else 0x89898989
              else
                if x & 2 == 0 then if x & 1 == 0 then 0x0f0f0f0f else 0x07070707 else if x & 1 == 0 then 0xafafafaf else 0xfbfbfbfb
          else
            if x & 0x08 == 0 then
              if x & 0x04 == 0 then
                if x & 2 == 0 then if x & 1 == 0 then 0x08080808 else 0x15151515 else if x & 1 == 0 then 0x0d0d0d0d else 0x04040404
              else
                if x & 2 == 0 then if x & 1 == 0 then 0x01010101 else 0x64646464 else if x & 1 == 0 then 0xdfdfdfdf else 0x76767676
            else
              if x & 0x04 == 0 then
                if x & 2 == 0 then if x & 1 == 0 then 0x79797979 else 0xdddddddd else if x & 1 == 0 then 0x3d3d3d3d else 0x16161616
              else
                if x & 2 == 0 then if x & 1 == 0 then 0x3f3f3f3f else 0x37373737 else if x & 1 == 0 then 0x6d6d6d6d else 0x38383838
        else
          if x & 0x10 == 0 then
            if x & 0x08 == 0 then
              if x & 0x04 == 0 then
                if x & 2 == 0 then if x & 1 == 0 then 0xb9b9b9b9 else 0x73737373 else if x & 1 == 0 then 0xe9e9e9e9 else 0x35353535
              else
                if x & 2 == 0 then if x & 1 == 0 then 0x55555555 else 0x71717171 else if x & 1 == 0 then 0x7b7b7b7b else 0x8c8c8c8c
            else
              if x & 0x04 == 0 then
                if x & 2 == 0 then if x & 1 == 0 then 0x72727272 else 0x88888888 else if x & 1 == 0 then 0xf6f6f6f6 else 0x2a2a2a2a
              else
                if x & 2 == 0 then if x & 1 == 0 then 0x3e3e3e3e else 0x5e5e5e5e else if x & 1 == 0 then 0x27272727 else 0x46464646
          else
            if x & 0x08 == 0 then
              if x & 0x04 == 0 then
                if x & 2 == 0 then if x & 1 == 0 then 0x0c0c0c0c else 0x65656565 else if x & 1 == 0 then 0x68686868 else 0x61616161
              else
                if x & 2 == 0 then if x & 1 == 0 then 0x03030303 else 0xc1c1c1c1 else if x & 1 == 0 then 0x57575757 else 0xd6d6d6d6
            else
              if x & 0x04 == 0 then
                if x & 2 == 0 then if x & 1 == 0 then 0xd9d9d9d9 else 0x58585858 else if x & 1 == 0 then 0xd8d8d8d8 else 0x66666666
              else
                if x & 2 == 0 then if x & 1 == 0 then 0xd7d7d7d7 else 0x3a3a3a3a else if x & 1 == 0 then 0xc8c8c8c8 else 0x3c3c3c3c
    else
      if x & 0x40 == 0 then
        if x & 0x20 == 0 then
          if x & 0x10 == 0 then
            if x & 0x08 == 0 then
              if x & 0x04 == 0 then
                if x & 2 == 0 then if x & 1 == 0 then 0xfafafafa else 0x96969696 else if x & 1 == 0 then 0xa7a7a7a7 else 0x98989898
              else
                if x & 2 == 0 then if x & 1 == 0 then 0xecececec else 0xb8b8b8b8 else if x & 1 == 0 then 0xc7c7c7c7 else 0xaeaeaeae
            else
              if x & 0x04 == 0 then
                if x & 2 == 0 then if x & 1 == 0 then 0x69696969 else 0x4b4b4b4b else if x & 1 == 0 then 0xabababab else 0xa9a9a9a9
              else
                if x & 2 == 0 then if x & 1 == 0 then 0x67676767 else 0x0a0a0a0a else if x & 1 == 0 then 0x47474747 else 0xf2f2f2f2
          else
            if x & 0x08 == 0 then
              if x & 0x04 == 0 then
                if x & 2 == 0 then if x & 1 == 0 then 0xb5b5b5b5 else 0x22222222 else if x & 1 == 0 then 0xe5e5e5e5 else 0xeeeeeeee
              else
                if x & 2 == 0 then if x & 1 == 0 then 0xbebebebe else 0x2b2b2b2b else if x & 1 == 0 then 0x81818181 else 0x12121212
            else
              if x & 0x04 == 0 then
                if x & 2 == 0 then if x & 1 == 0 then 0x83838383 else 0x1b1b1b1b else if x & 1 == 0 then 0x0e0e0e0e else 0x23232323
              else
                if x & 2 == 0 then if x & 1 == 0 then 0xf5f5f5f5 else 0x45454545 else if x & 1 == 0 then 0x21212121 else 0xcececece
        else
          if x & 0x10 == 0 then
            if x & 0x08 == 0 then
              if x & 0x04 == 0 then
                if x & 2 == 0 then if x & 1 == 0 then 0x49494949 else 0x2c2c2c2c else if x & 1 == 0 then 0xf9f9f9f9 else 0xe6e6e6e6
              else
                if x & 2 == 0 then if x & 1 == 0 then 0xb6b6b6b6 else 0x28282828 else if x & 1 == 0 then 0x17171717 else 0x82828282
            else
              if x & 0x04 == 0 then
                if x & 2 == 0 then if x & 1 == 0 then 0x1a1a1a1a else 0x8b8b8b8b else if x & 1 == 0 then 0xfefefefe else 0x8a8a8a8a
              else
                if x & 2 == 0 then if x & 1 == 0 then 0x09090909 else 0xc9c9c9c9 else if x & 1 == 0 then 0x87878787 else 0x4e4e4e4e
          else
            if x & 0x08 == 0 then
              if x & 0x04 == 0 then
                if x & 2 == 0 then if x & 1 == 0 then 0xe1e1e1e1 else 0x2e2e2e2e else if x & 1 == 0 then 0xe4e4e4e4 else 0xe0e0e0e0
              else
                if x & 2 == 0 then if x & 1 == 0 then 0xebebebeb else 0x90909090 else if x & 1 == 0 then 0xa4a4a4a4 else 0x1e1e1e1e
            else
              if x & 0x04 == 0 then
                if x & 2 == 0 then if x & 1 == 0 then 0x85858585 else 0x60606060 else if x & 1 == 0 then 0x00000000 else 0x25252525
              else
                if x & 2 == 0 then if x & 1 == 0 then 0xf4f4f4f4 else 0xf1f1f1f1 else if x & 1 == 0 then 0x94949494 else 0x0b0b0b0b
      else
        if x & 0x20 == 0 then
          if x & 0x10 == 0 then
            if x & 0x08 == 0 then
              if x & 0x04 == 0 then
                if x & 2 == 0 then if x & 1 == 0 then 0xe7e7e7e7 else 0x75757575 else if x & 1 == 0 then 0xefefefef else 0x34343434
              else
                if x & 2 == 0 then if x & 1 == 0 then 0x31313131 else 0xd4d4d4d4 else if x & 1 == 0 then 0xd0d0d0d0 else 0x86868686
            else
              if x & 0x04 == 0 then
                if x & 2 == 0 then if x & 1 == 0 then 0x7e7e7e7e else 0xadadadad else if x & 1 == 0 then 0xfdfdfdfd else 0x29292929
              else
                if x & 2 == 0 then if x & 1 == 0 then 0x30303030 else 0x3b3b3b3b else if x & 1 == 0 then 0x9f9f9f9f else 0xf8f8f8f8
          else
            if x & 0x08 == 0 then
              if x & 0x04 == 0 then
                if x & 2 == 0 then if x & 1 == 0 then 0xc6c6c6c6 else 0x13131313 else if x & 1 == 0 then 0x06060606 else 0x05050505
              else
                if x & 2 == 0 then if x & 1 == 0 then 0xc5c5c5c5 else 0x11111111 else if x & 1 == 0 then 0x77777777 else 0x7c7c7c7c
            else
              if x & 0x04 == 0 then
                if x & 2 == 0 then if x & 1 == 0 then 0x7a7a7a7a else 0x78787878 else if x & 1 == 0 then 0x36363636 else 0x1c1c1c1c
              else
                if x & 2 == 0 then if x & 1 == 0 then 0x39393939 else 0x59595959 else if x & 1 == 0 then 0x18181818 else 0x56565656
        else
          if x & 0x10 == 0 then
            if x & 0x08 == 0 then
              if x & 0x04 == 0 then
                if x & 2 == 0 then if x & 1 == 0 then 0xb3b3b3b3 else 0xb0b0b0b0 else if x & 1 == 0 then 0x24242424 else 0x20202020
              else
                if x & 2 == 0 then if x & 1 == 0 then 0xb2b2b2b2 else 0x92929292 else if x & 1 == 0 then 0xa3a3a3a3 else 0xc0c0c0c0
            else
              if x & 0x04 == 0 then
                if x & 2 == 0 then if x & 1 == 0 then 0x44444444 else 0x62626262 else if x & 1 == 0 then 0x10101010 else 0xb4b4b4b4
              else
                if x & 2 == 0 then if x & 1 == 0 then 0x84848484 else 0x43434343 else if x & 1 == 0 then 0x93939393 else 0xc2c2c2c2
          else
            if x & 0x08 == 0 then
              if x & 0x04 == 0 then
                if x & 2 == 0 then if x & 1 == 0 then 0x4a4a4a4a else 0xbdbdbdbd else if x & 1 == 0 then 0x8f8f8f8f else 0x2d2d2d2d
              else
                if x & 2 == 0 then if x & 1 == 0 then 0xbcbcbcbc else 0x9c9c9c9c else if x & 1 == 0 then 0x6a6a6a6a else 0x40404040
            else
              if x & 0x04 == 0 then
                if x & 2 == 0 then if x & 1 == 0 then 0xcfcfcfcf else 0xa2a2a2a2 else if x & 1 == 0 then 0x80808080 else 0x4f4f4f4f
              else
                if x & 2 == 0 then if x & 1 == 0 then 0x1f1f1f1f else 0xcacacaca else if x & 1 == 0 then 0xaaaaaaaa else 0x42424242
  }

  function T5(x: bv8): bv32 {
    if x & 0x80 == 0 then
      if x & 0x40 == 0 then
        if x & 0x20 == 0 then
          if x & 0x10 == 0 then
            if x & 0x08 == 0 then
              if x & 0x04 == 0 then
                if x & 2 == 0 then if x & 1 == 0 then 0x00000000 else 0x01020608 else if x & 1 == 0 then 0x02040c10 else 0x03060a18
              else
                if x & 2 == 0 then if x & 1 == 0 then 0x04081820 else 0x050a1e28 else if x & 1 == 0 then 0x060c1430 else 0x070e1238
            else
              if x & 0x04 == 0 then
                if x & 2 == 0 then if x & 1 == 0 then 0x08103040 else 0x09123648 else if x & 1 == 0 then 0x0a143c50 else 0x0b163a58
              else
                if x & 2 == 0 then if x & 1 == 0 then 0x0c182860 else 0x0d1a2e68 else if x & 1 == 0 then 0x0e1c2470 else 0x0f1e2278
          else
            if x & 0x08 == 0 then
              if x & 0x04 == 0 then
                if x & 2 == 0 then if x & 1 == 0 then 0x10206080 else 0x11226688 else if x & 1 == 0 then 0x12246c90 else 0x13266a98
              else
                if x & 2 == 0 then if x & 1 == 0 then 0x142878a0 else 0x152a7ea8 else if x & 1 == 0 then 0x162c74b0 else 0x172e72b8
            else
              if x & 0x04 == 0 then
                if x & 2 == 0 then if x & 1 == 0 then 0x183050c0 else 0x193256c8 else if x & 1 == 0 then 0x1a345cd0 else 0x1b365ad8
              else
                if x & 2 == 0 then if x & 1 == 0 then 0x1c3848e0 else 0x1d3a4ee8 else if x & 1 == 0 then 0x1e3c44f0 else 0x1f3e42f8
        else
          if x & 0x10 == 0 then
            if x & 0x08 == 0 then
              if x & 0x04 == 0 then
                if x & 2 == 0 then if x & 1 == 0 then 0x2040c01d else 0x2142c615 else if x & 1 == 0 then 0x2244cc0d else 0x2346ca05
              else
                if x & 2 == 0 then if x & 1 == 0 then 0x2448d83d else 0x254ade35 else if x & 1 == 0 then 0x264cd42d else 0x274ed225
            else
              if x & 0x04 == 0 then
                if x & 2 == 0 then if x & 1 == 0 then 0x2850f05d else 0x2952f655 else if x & 1 == 0 then 0x2a54fc4d else 0x2b56fa45
              else
                if x & 2 == 0 then if x & 1 == 0 then 0x2c58e87d else 0x2d5aee75 else if x & 1 == 0 then 0x2e5ce46d else 0x2f5ee265
          else
            if x & 0x08 == 0 then
              if x & 0x04 == 0 then
                if x & 2 == 0 then if x & 1 == 0 then 0x3060a09d else 0x3162a695 else if x & 1 == 0 then 0x3264ac8d else 0x3366aa85
              else
                if x & 2 == 0 then if x & 1 == 0 then 0x3468b8bd else 0x356abeb5 else if x & 1 == 0 then 0x366cb4ad else 0x376eb2a5
            else
              if x & 0x04 == 0 then
                if x & 2 == 0 then if x & 1 == 0 then 0x387090dd else 0x397296d5 else if x & 1 == 0 then 0x3a749ccd else 0x3b769ac5
              else
                if x & 2 == 0 then if x & 1 == 0 then 0x3c7888fd else 0x3d7a8ef5 else if x & 1 == 0 then 0x3e7c84ed else 0x3f7e82e5
      else
        if x & 0x20 == 0 then
          if x & 0x10 == 0 then
            if x & 0x08 == 0 then
              if x & 0x04 == 0 then
                if x & 2 == 0 then if x & 1 == 0 then 0x40809d3a else 0x41829b32 else if x & 1 == 0 then 0x4284912a else 0x43869722
              else
                if x & 2 == 0 then if x & 1 == 0 then 0x4488851a else 0x458a8312 else if x & 1 == 0 then 0x468c890a else 0x478e8f02
            else
              if x & 0x04 == 0 then
                if x & 2 == 0 then if x & 1 == 0 then 0x4890ad7a else 0x4992ab72 else if x & 1 == 0 then 0x4a94a16a else 0x4b96a762
              else
                if x & 2 == 0 then if x & 1 == 0 then 0x4c98b55a else 0x4d9ab352 else if x & 1 == 0 then 0x4e9cb94a else 0x4f9ebf42
          else
            if x & 0x08 == 0 then
              if x & 0x04 == 0 then
                if x & 2 == 0 then if x & 1 == 0 then 0x50a0fdba else 0x51a2fbb2 else if x & 1 == 0 then 0x52a4f1aa else 0x53a6f7a2
              else
                if x & 2 == 0 then if x & 1 == 0 then 0x54a8e59a else 0x55aae392 else if x & 1 == 0 then 0x56ace98a else 0x57aeef82
            else
              if x & 0x04 == 0 then
                if x & 2 == 0 then if x & 1 == 0 then 0x58b0cdfa else 0x59b2cbf2 else if x & 1 == 0 then 0x5ab4c1ea else 0x5bb6c7e2
              else
                if x & 2 == 0 then if x & 1 == 0 then 0x5cb8d5da else 0x5dbad3d2 else if x & 1 == 0 then 0x5ebcd9ca else 0x5fbedfc2
        else
          if x & 0x10 == 0 then
            if x & 0x08 == 0 then
              if x & 0x04 == 0 then
                if x & 2 == 0 then if x & 1 == 0 then 0x60c05d27 else 0x61c25b2f else if x & 1 == 0 then 0x62c45137 else 0x63c6573f
              else
                if x & 2 == 0 then if x & 1 == 0 then 0x64c84507 else 0x65ca430f else if x & 1 == 0 then 0x66cc4917 else 0x67ce4f1f
            else
              if x & 0x04 == 0 then
                if x & 2 == 0 then if x & 1 == 0 then 0x68d06d67 else 0x69d26b6f else if x & 1 == 0 then 0x6ad46177 else 0x6bd6677f
              else
                if x & 2 == 0 then if x & 1 == 0 then 0x6cd87547 else 0x6dda734f else if x & 1 == 0 then 0x6edc7957 else 0x6fde7f5f
          else
            if x & 0x08 == 0 then
              if x & 0x04 == 0 then
                if x & 2 == 0 then if x & 1 == 0 then 0x70e03da7 else 0x71e23baf else if x & 1 == 0 then 0x72e431b7 else 0x73e637bf
              else
                if x & 2 == 0 then if x & 1 == 0 then 0x74e82587 else 0x75ea238f else if x & 1 == 0 then 0x76ec2997 else 0x77ee2f9f
            else
              if x & 0x04 == 0 then
                if x & 2 == 0 then if x & 1 == 0 then 0x78f00de7 else 0x79f20bef else if x & 1 == 0 then 0x7af401f7 else 0x7bf607ff
              else
                if x & 2 == 0 then if x & 1 == 0 then 0x7cf815c7 else 0x7dfa13cf else if x & 1 == 0 then 0x7efc19d7 else 0x7ffe1fdf
    else
      if x & 0x40 == 0 then
        if x & 0x20 == 0 then
          if x & 0x10 == 0 then
            if x & 0x08 == 0 then
              if x & 0x04 == 0 then
                if x & 2 == 0 then if x & 1 == 0 then 0x801d2774 else 0x811f217c else if x & 1 == 0 then 0x82192b64 else 0x831b2d6c
              else
                if x & 2 == 0 then if x & 1 == 0 then 0x84153f54 else 0x8517395c else if x & 1 == 0 then 0x86113344 else 0x8713354c
            else
              if x & 0x04 == 0 then
                if x & 2 == 0 then if x & 1 == 0 then 0x880d1734 else 0x890f113c else if x & 1 == 0 then 0x8a091b24 else 0x8b0b1d2c
              else
                if x & 2 == 0 then if x & 1 == 0 then 0x8c050f14 else 0x8d07091c else if x & 1 == 0 then 0x8e010304 else 0x8f03050c
          else
            if x & 0x08 == 0 then
              if x & 0x04 == 0 then
                if x & 2 == 0 then if x & 1 == 0 then 0x903d47f4 else 0x913f41fc else if x & 1 == 0 then 0x92394be4 else 0x933b4dec
              else
                if x & 2 == 0 then if x & 1 == 0 then 0x94355fd4 else 0x953759dc else if x & 1 == 0 then 0x963153c4 else 0x973355cc
            else
              if x & 0x04 == 0 then
                if x & 2 == 0 then if x & 1 == 0 then 0x982d77b4 else 0x992f71bc else if x & 1 == 0 then 0x9a297ba4 else 0x9b2b7dac
              else
                if x & 2 == 0 then if x & 1 == 0 then 0x9c256f94 else 0x9d27699c else if x & 1 == 0 then 0x9e216384 else 0x9f23658c
        else
          if x & 0x10 == 0 then
            if x & 0x08 == 0 then
              if x & 0x04 == 0 then
                if x & 2 == 0 then if x & 1 == 0 then 0xa05de769 else 0xa15fe161 else if x & 1 == 0 then 0xa259eb79 else 0xa35bed71
              else
                if x & 2 == 0 then if x & 1 == 0 then 0xa455ff49 else 0xa557f941 else if x & 1 == 0 then 0xa651f359 else 0xa753f551
            else
              if x & 0x04 == 0 then
                if x & 2 == 0 then if x & 1 == 0 then 0xa84dd729 else 0xa94fd121 else if x & 1 == 0 then 0xaa49db39 else 0xab4bdd31
              else
                if x & 2 == 0 then if x & 1 == 0 then 0xac45cf09 else 0xad47c901 else if x & 1 == 0 then 0xae41c319 else 0xaf43c511
          else
            if x & 0x08 == 0 then
              if x & 0x04 == 0 then
                if x & 2 == 0 then if x & 1 == 0 then 0xb07d87e9 else 0xb17f81e1 else if x & 1 == 0 then 0xb2798bf9 else 0xb37b8df1
              else
                if x & 2 == 0 then if x & 1 == 0 then 0xb4759fc9 else 0xb57799c1 else if x & 1 == 0 then 0xb67193d9 else 0xb77395d1
            else
              if x & 0x04 == 0 then
                if x & 2 == 0 then if x & 1 == 0 then 0xb86db7a9 else 0xb96fb1a1 else if x & 1 == 0 then 0xba69bbb9 else 0xbb6bbdb1
              else
                if x & 2 == 0 then if x & 1 == 0 then 0xbc65af89 else 0xbd67a981 else if x & 1 == 0 then 0xbe61a399 else 0xbf63a591
      else
        if x & 0x20 == 0 then
          if x & 0x10 == 0 then
            if x & 0x08 == 0 then
              if x & 0x04 == 0 then
                if x & 2 == 0 then if x & 1 == 0 then 0xc09dba4e else 0xc19fbc46 else if x & 1 == 0 then 0xc299b65e else 0xc39bb056
              else
                if x & 2 == 0 then if x & 1 == 0 then 0xc495a26e else 0xc597a466 else if x & 1 == 0 then 0xc691ae7e else 0xc793a876
            else
              if x & 0x04 == 0 then
                if x & 2 == 0 then if x & 1 == 0 then 0xc88d8a0e else 0xc98f8c06 else if x & 1 == 0 then 0xca89861e else 0xcb8b8016
              else
                if x & 2 == 0 then if x & 1 == 0 then 0xcc85922e else 0xcd879426 else if x & 1 == 0 then 0xce819e3e else 0xcf839836
          else
            if x & 0x08 == 0 then
              if x & 0x04 == 0 then
                if x & 2 == 0 then if x & 1 == 0 then 0xd0bddace else 0xd1bfdcc6 else if x & 1 == 0 then 0xd2b9d6de else 0xd3bbd0d6
              else
                if x & 2 == 0 then if x & 1 == 0 then 0xd4b5c2ee else 0xd5b7c4e6 else if x & 1 == 0 then 0xd6b1cefe else 0xd7b3c8f6
            else
              if x & 0x04 == 0 then
                if x & 2 == 0 then if x & 1 == 0 then 0xd8adea8e else 0xd9afec86 else if x & 1 == 0 then 0xdaa9e69e else 0xdbabe096
              else
                if x & 2 == 0 then if x & 1 == 0 then 0xdca5f2ae else 0xdda7f4a6 else if x & 1 == 0 then 0xdea1febe else 0xdfa3f8b6
        else
          if x & 0x10 == 0 then
            if x & 0x08 == 0 then
              if x & 0x04 == 0 then
                if x & 2 == 0 then if x & 1 == 0 then 0xe0dd7a53 else 0xe1df7c5b else if x & 1 == 0 then 0xe2d97643 else 0xe3db704b
              else
                if x & 2 == 0 then if x & 1 == 0 then 0xe4d56273 else 0xe5d7647b else if x & 1 == 0 then 0xe6d16e63 else 0xe7d3686b
            else
              if x & 0x04 == 0 then
                if x & 2 == 0 then if x & 1 == 0 then 0xe8cd4a13 else 0xe9cf4c1b else if x & 1 == 0 then 0xeac94603 else 0xebcb400b
              else
                if x & 2 == 0 then if x & 1 == 0 then 0xecc55233 else 0xedc7543b else if x & 1 == 0 then 0xeec15e23 else 0xefc3582b
          else
            if x & 0x08 == 0 then
              if x & 0x04 == 0 then
                if x & 2 == 0 then if x & 1 == 0 then 0xf0fd1ad3 else 0xf1ff1cdb else if x & 1 == 0 then 0xf2f916c3 else 0xf3fb10cb
              else
                if x & 2 == 0 then if x & 1 == 0 then 0xf4f502f3 else 0xf5f704fb else if x & 1 == 0 then 0xf6f10ee3 else 0xf7f308eb
            else
              if x & 0x04 == 0 then
                if x & 2 == 0 then if x & 1 == 0 then 0xf8ed2a93 else 0xf9ef2c9b else if x & 1 == 0 then 0xfae92683 else 0xfbeb208b
              else
                if x & 2 == 0 then if x & 1 == 0 then 0xfce532b3 else 0xfde734bb else if x & 1 == 0 then 0xfee13ea3 else 0xffe338ab
  }

  /** Round constants of the key schedule. */
  const rc: seq<bv32> := [
    0xba542f74, 0x53d3d24d, 0x50ac8dbf, 0x70529a4c,
    0xead597d1, 0x33515ba6, 0xde48a899, 0xdb32b7fc,
    0xe39e919b, 0xe2bb416e, 0xa5cb6b95, 0xa1f3b102,
    0xccc41d14, 0xc363da5d, 0x5fdc7dcd, 0x7f5a6c5c,
    0xf726ffed, 0xe89d6f8e, 0x19a0f089
  ]

  // ----- words and bytes, most significant first

  function Pack(a: bv8, b: bv8, c: bv8, d: bv8): bv32 {
    (a as bv32 << 24) | (b as bv32 << 16) | (c as bv32 << 8) | (d as bv32)
  }

  function B0(w: bv32): bv8 {
    (w >> 24) as bv8
  }

  function B1(w: bv32): bv8 {
    ((w >> 16) & 0xff) as bv8
  }

  function B2(w: bv32): bv8 {
    ((w >> 8) & 0xff) as bv8
  }

  function B3(w: bv32): bv8 {
    (w & 0xff) as bv8
  }

  // ----- the field

  /** Twice `a`, with the bit shifted out folded back in. */
  function Mul2(a: bv8): bv8 {
    var c := a >> 7;
    (a << 1) ^ c ^ (c << 2) ^ (c << 3) ^ (c << 4)
  }

  function Mul4(a: bv8): bv8 {
    Mul2(Mul2(a))
  }

  function Mul6(a: bv8): bv8 {
    Mul4(a) ^ Mul2(a)
  }

  function Mul8(a: bv8): bv8 {
    Mul2(Mul4(a))
  }

  // ----- what the tables hold

  /** The S-box, which occurs only inside the tables. */
  function S(x: bv8): bv8 {
    (T4(x) & 0xff) as bv8
  }

  lemma {:induction false} SboxInvolution(x: bv8)
    ensures S(S(x)) == x
  {
  }

  /** The word holds the entries of the S-box from `k` on. */
  ghost predicate FromSbox(w: bv32, k: bv8) {
    w == Pack(S(k), S(k + 1), S(k + 2), S(k + 3))
  }

  lemma {:induction false} RcFirst()
    ensures FromSbox(0xba542f74, 0) && FromSbox(0x53d3d24d, 4) && FromSbox(0x50ac8dbf, 8) && FromSbox(0x70529a4c, 12)
    ensures FromSbox(0xead597d1, 16) && FromSbox(0x33515ba6, 20) && FromSbox(0xde48a899, 24) && FromSbox(0xdb32b7fc, 28)
  {
  }

  lemma {:induction false} RcSecond()
    ensures FromSbox(0xe39e919b, 32) && FromSbox(0xe2bb416e, 36) && FromSbox(0xa5cb6b95, 40) && FromSbox(0xa1f3b102, 44)
    ensures FromSbox(0xccc41d14, 48) && FromSbox(0xc363da5d, 52) && FromSbox(0x5fdc7dcd, 56) && FromSbox(0x7f5a6c5c, 60)
    ensures FromSbox(0xf726ffed, 64) && FromSbox(0xe89d6f8e, 68) && FromSbox(0x19a0f089, 72)
  {
  }

  /** The round constants are the S-box, four entries at a time. */
  lemma {:induction false} RoundConstantsLow()
    ensures |rc| == 19
    ensures FromSbox(rc[0], 0) && FromSbox(rc[1], 4) && FromSbox(rc[2], 8) && FromSbox(rc[3], 12)
    ensures FromSbox(rc[4], 16) && FromSbox(rc[5], 20) && FromSbox(rc[6], 24) && FromSbox(rc[7], 28)
  {
    RcFirst();
  }

  lemma {:induction false} RoundConstantsHigh()
    ensures |rc| == 19
    ensures FromSbox(rc[8], 32) && FromSbox(rc[9], 36) && FromSbox(rc[10], 40) && FromSbox(rc[11], 44)
    ensures FromSbox(rc[12], 48) && FromSbox(rc[13], 52) && FromSbox(rc[14], 56) && FromSbox(rc[15], 60)
    ensures FromSbox(rc[16], 64) && FromSbox(rc[17], 68) && FromSbox(rc[18], 72)
  {
    RcSecond();
  }

  lemma {:induction false} T0Holds(x: bv8)
    ensures T0(x) == Pack(S(x), Mul2(S(x)), Mul4(S(x)), Mul6(S(x)))
  {
    if x & 0xe0 == 0x00 { return; }
    if x & 0xe0 == 0x20 { return; }
    if x & 0xe0 == 0x40 { return; }
    if x & 0xe0 == 0x60 { return; }
    if x & 0xe0 == 0x80 { return; }
    if x & 0xe0 == 0xa0 { return; }
    if x & 0xe0 == 0xc0 { return; }
  }

  lemma {:induction false} T1Holds(x: bv8)
    ensures T1(x) == Pack(Mul2(S(x)), S(x), Mul6(S(x)), Mul4(S(x)))
  {
    if x & 0xe0 == 0x00 { return; }
    if x & 0xe0 == 0x20 { return; }
    if x & 0xe0 == 0x40 { return; }
    if x & 0xe0 == 0x60 { return; }
    if x & 0xe0 == 0x80 { return; }
    if x & 0xe0 == 0xa0 { return; }
    if x & 0xe0 == 0xc0 { return; }
  }

  lemma {:induction false} T2Holds(x: bv8)
    ensures T2(x) == Pack(Mul4(S(x)), Mul6(S(x)), S(x), Mul2(S(x)))
  {
    if x & 0xe0 == 0x00 { return; }
    if x & 0xe0 == 0x20 { return; }
    if x & 0xe0 == 0x40 { return; }
    if x & 0xe0 == 0x60 { return; }
    if x & 0xe0 == 0x80 { return; }
    if x & 0xe0 == 0xa0 { return; }
    if x & 0xe0 == 0xc0 { return; }
  }

  lemma {:induction false} T3Holds(x: bv8)
    ensures T3(x) == Pack(Mul6(S(x)), Mul4(S(x)), Mul2(S(x)), S(x))
  {
    if x & 0xe0 == 0x00 { return; }
    if x & 0xe0 == 0x20 { return; }
    if x & 0xe0 == 0x40 { return; }
    if x & 0xe0 == 0x60 { return; }
    if x & 0xe0 == 0x80 { return; }
    if x & 0xe0 == 0xa0 { return; }
    if x & 0xe0 == 0xc0 { return; }
  }

  lemma {:induction false} T4Holds(x: bv8)
    ensures T4(x) == Pack(S(x), S(x), S(x), S(x))
  {
    if x & 0xe0 == 0x00 { return; }
    if x & 0xe0 == 0x20 { return; }
    if x & 0xe0 == 0x40 { return; }
    if x & 0xe0 == 0x60 { return; }
    if x & 0xe0 == 0x80 { return; }
    if x & 0xe0 == 0xa0 { return; }
    if x & 0xe0 == 0xc0 { return; }
  }

  lemma {:induction false} T5Holds(x: bv8)
    ensures T5(x) == Pack(x, Mul2(x), Mul6(x), Mul8(x))
  {
    if x & 0xe0 == 0x00 { return; }
    if x & 0xe0 == 0x20 { return; }
    if x & 0xe0 == 0x40 { return; }
    if x & 0xe0 == 0x60 { return; }
    if x & 0xe0 == 0x80 { return; }
    if x & 0xe0 == 0xa0 { return; }
    if x & 0xe0 == 0xc0 { return; }
  }
}
