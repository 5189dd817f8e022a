/** The ten substitution rows of the cipher as the source lists them, and that they meet the condition under
    which every message survives (Cipher.RoundTripsIff). */
module CipherRows {
  import opened Words
  import opened Cipher

  // -------------------------------------------------------------------------------------------
  // The rows, sixteen entries to a piece, and beside each row where its bytes are
  // -------------------------------------------------------------------------------------------

  function Row0(h: byte): bv128 {
    match h
    case 0 => 0x26eff744d632df27a03c74d012e3e43d case 1 => 0x2d094d2133ceeafdcce56e4f3102c628
    case 2 => 0xae5bca81d20e3f94387d011cc8f1ecdd case 3 => 0x690fc11ab67eb87866b28547104a2ed8
    case 4 => 0x30196584e8249246b0225476979eeb9c case 5 => 0x95a6f391827a345216e6907cbbfb04a2
    case 6 => 0xe01861a8235548b7587950ad56c98b1d case 7 => 0x1129d7686d45a3f239a9da8e419d9a70
    case 8 => 0xe793f4bd72fa0ca40773ffb4def6f915 case 9 => 0xc34275c0eec2f05a3b203a8c432ccf8a
    case 10 => 0xb9b5d3cbaf80f55e2a0b358f13c54e53 case 11 => 0x1f9851e26099d17757aa7f2563be9f40
    case 12 => 0xd9f86c5dba05d55ffc59b14c888362ac case 13 => 0x0a6f9bdbfe06378d086b96ed8917bce9
    case 14 => 0x14674b36c7495ca7cd7b2fdcc4d4a1ab case _ => 0xa50d1ebf86e13eb3038764712b6a001b
  }

  function Back0(h: byte): bv128 {
    match h
    case 0 => 0xfe2a1df85ec5d588d811d0a986f12531 case 1 => 0x3c700cace08f58dd614133ff2b6ff2b0
    case 2 => 0x9913496445bb00071f71a8fc9d103eea case 3 => 0x401c051456aae3d628789a98090ff626
    case 4 => 0xbf7c919c0375473b66e53de2cb12ae1b case 5 => 0x6ab257af4a656cb868c99721e6c3a7c7
    case 6 => 0xb462cebcfa4238e17330fdd9c2741ad1 case 7 => 0x7ffb84890a924bb7376955e95b2935ba
    case 8 => 0xa52354cd433af4f9ccdc9f6e9bd77bab case 9 => 0x5a5346812750da4cb1b57ed24f7d4dbe
    case 10 => 0x08ee5f7687f051e76379b9efcf6b20a4 case 11 => 0x48ca39f78ba1346736a0c45cde83bdf3
    case 12 => 0x93329590ecad1ee42c6d22a318e8159e case 13 => 0x0bb624a2edc604723fc07ad3eb2f8c06
    case 14 => 0x60f5b30d0e19598044df164e2edb9401 case _ => 0x962d775282a68d02c18e855dc817d48a
  }

  function Row1(h: byte): bv128 {
    match h
    case 0 => 0x20b30df5c29b189f586da247d53d2393 case 1 => 0x8df6c74de410c971753a52d3fb66a92c
    case 2 => 0xf7f16a25ed06b6d8444ca367393f90d0 case 3 => 0xd632e968b57c96cd5ce751cefab95a9c
    case 4 => 0x9ea04a24af95984253ecd26c35f29961 case 5 => 0xca9d413729c033b8baa6dfc60be8604f
    case 6 => 0x918f70222e7e5e4ebf077d97e30a2d54 case 7 => 0x6f7b5003a462f3da2ab1f815e2123485
    case 8 => 0xe176f9d9468a0cc1ccbb1b49ab11b787 case 9 => 0x304b77f4d7aac355ef02eae5fd1609d4
    case 10 => 0xa52836791cad2bb473e0bdbe1d64405f case 11 => 0x081a17925d6bfcde8331570f8c45b2c4
    case 12 => 0xeb82dd88a7130121742f0eff27943ef0 case 13 => 0xdc78631ec8cb1f43148baeac26593800
    case 14 => 0xee8ed148a1db5b72b005fe6e80896581 case _ => 0x56c53c9a7a0484697fbccf8619e6a83b
  }

  function Back1(h: byte): bv128 {
    match h
    case 0 => 0xdfc69973f5e92569b09e6d5c8602cabb case 1 => 0x158d7dc5d87b9db206fcb18aa4acd3d6
    case 2 => 0x00c7630e4323dccca15478a61f6e64c9 case 3 => 0x90b931567e4ca253de2c19fff20dce2d
    case 4 => 0xae5247d728bd840be38b42912913675f case 5 => 0x723a1a486f97f0ba08dd3ee638b466af
    case 6 => 0x5e4f75d2adee1d2b33f722b54b09eb70 case 7 => 0x6217e7a8c8188192d1a3f471356a65f8
    case 8 => 0xecefc1b8f67ffb8fc3ed85d9bc10e161 case 9 => 0x2e60b30fcd45366b464ef3053f514007
    case 10 => 0x41e40a2a74a059c4fe1e958cdba5da44 case 11 => 0xe879be01a734268e573d5889f9aaab68
    case 12 => 0x55870496bff15b12d41650d588373bfa case 13 => 0x2fe24a1b9f0c3094278377e5d0c2b75a
    case 14 => 0xa9807c6c149bfd395d329ac04924e098 case _ => 0xcf214d76930311207a823c1cb69ceacb
  }

  function Row2(h: byte): bv128 {
    match h
    case 0 => 0x41b973faf86c4db85f43e04fa3bf1647 case 1 => 0x77f58ac83b998e97dfaa715bd9c42c5d
    case 2 => 0x441117eaba28f0a20200e30ffbce5ce5 case 3 => 0x4b0c4018828d158724814c89c556d51d
    case 4 => 0x2e1b326b66fdfc3d3c2bbb78af98b37d case 5 => 0xb501aeb1539535db260439034a90adb2
    case 6 => 0x9e8b14ee57c2380d3a83fe7e84541e0e case 7 => 0xcf70517fd6b0a729bd49f680936fc99b
    case 8 => 0x92ec96f26837dac61059070b63769108 case 9 => 0xa4c0dd5e338c45b7cb601c9de6ca42ed
    case 10 => 0x749c9fdc2df78522d83075de06d79af1 case 11 => 0xff67d361a07ae1d2bce91309c3cdef27
    case 12 => 0x94ab6250ebbe12e2d4e75a8623e8a82f case 13 => 0x31d1e419c188a12548f9b420f33e34a6
    case 14 => 0xa98f7c79b66e1f4ecc6d1a2165365564 case _ => 0xf47b0a72ac462a6aa53f52c769d00558
  }

  function Back2(h: byte): bv128 {
    match h
    case 0 => 0x2951285b59feac8a8fbbf28b31676f2b case 1 => 0x8821c6ba62360e2233d3ea419a3f6ee6
    case 2 => 0xdbeba7cc38d758bf2577f6491ea440cf case 3 => 0xa9d04294de56ed85665a68144847ddf9
    case 4 => 0x32009e092096f50fd8795c303a06e70b case 5 => 0xc372fa546dee3d64ff89ca1b2e1f9308
    case 6 => 0x99b3c28cefec44b184fcf74305e9e57d case 7 => 0x711af302a0aa8d104be3b5f1e24f6b73
    case 8 => 0x7b3934696ca6cb37d53b1261953516e1 case 9 => 0x5d8e807cc05582174d15ae7fa19b60a2
    case 10 => 0xb4d6270c90f8df76cee019c1f45e524c case 11 => 0x75535f4eda50e4970701244ab878c50d
    case 12 => 0x91d465bc1d3c87fb137e9d98e8bd2d70 case 13 => 0xfdd1b7b2c83e74ada81c8657a392ab18
    case 14 => 0x0ab6c72ad22f9cc9cdb923c4819f63be case _ => 0x26af83dcf0117aa504d9032c46456ab0
  }

  function Row3(h: byte): bv128 {
    match h
    case 0 => 0x9da3249c86ed89312b07e96f3fb4a021 case 1 => 0x28fee763205b6542dfff2dd749ef92aa
    case 2 => 0x80d344c16ece4bb7c666fae8a4919796 case 3 => 0xb9d65c619a6285beac45171c270f67cf
    case 4 => 0x383af11147eea9839fca066d0e2f7a41 case 5 => 0x2e787dd92534b3a8fcb00490507948bd
    case 6 => 0xc4c522988173298a40f4541efbf9bbf0 case 7 => 0xcb2c5751c3d4ab1d0dc919ea7236a58b
    case 8 => 0x081512ebafb803d2a1e4590c70a73923 case 9 => 0xd19418adb1d8fd46f2ba53d5107cc095
    case 10 => 0x3d435a4c715574cc356c4f0558825d75 case 11 => 0x09e61aa29bdb8e5fe1695eb277764d60
    case 12 => 0x0b6a64334a3b8d2a847e000187564ec2 case 13 => 0xf352c82602dd68b6de37ec7b88993e3c
    case 14 => 0x321bf76b0a8f9e1413da93f616d0a6e2 case _ => 0x30e0c7f5e57fcddcbf8ce3f8b5ae1fbc
  }

  function Back3(h: byte): bv128 {
    match h
    case 0 => 0xcacbd4865aab4a0980b0e4c08b784c3d case 1 => 0x9c4382e8e781ec3a927ab2e13b776bfe
    case 2 => 0x140f628f0254d33c1066c708711a504d case 3 => 0xf007e0c355a87dd9408e41c5dfa0de0c
    case 4 => 0x684f17a1223997445e1cc426a3beceaa case 5 => 0x5c73d19a6aa5cd72ac8aa21532aebab7
    case 6 => 0xbf333513c216293ed6b9c1e3a94b240b case 7 => 0x8ca47c65a6afbdbc515d4edb9d52c9f5
    case 8 => 0x2064ad47c83604ccdc06677ff9c6b6e5 case 9 => 0x5b2d1eea919f2f2e63dd34b40300e648
    case 10 => 0x0e88b3012c7eee8d57461f763893fd84 case 11 => 0x5994bb560dfcd7278530996eff5f37f8
    case 12 => 0x9e23cf74606128f2d2794970a7f6253f case 13 => 0xed908721759b311b9553e9b5f7d5d818
    case 14 => 0xf1b8effa89f4b1122b0a7b83da05451d case _ => 0x6f4298d069f3ebe2fb6d2a6c58961119
  }

  function Row4(h: byte): bv128 {
    match h
    case 0 => 0x7f1b0eda217d52b24ad58a4d372699f6 case 1 => 0x1add6ef28e3d91ab71cf3e0d628f5d08
    case 2 => 0xf9f1ef88ecfe32d087495330e7153aed case 3 => 0x85ba66759dc1c8c9f8131d57a6de33a7
    case 4 => 0xd2466bf5ff19689ebf42ea1f9f2f40fc case 5 => 0xa43c050cf4c25b20844f0297f7a282bd
    case 6 => 0xb018c3146ca3e5257af39a35e628e16a case 7 => 0xd1fd06b50a925f012738bbc680eb24b8
    case 8 => 0x86d8d344ee676190afdc4ecd83b11e45 case 9 => 0x22be2c692a237479b3a9167348e8c7e9
    case 10 => 0x1cd476e0aab447b9b77b5e989312c5ca case 11 => 0x2d29966f175034786d07a82ed7e3cbd9
    case 12 => 0x315872e4f09b8c09ae55115a2b598d43 case 13 => 0xa13f63c4811054bc03ce654ca50fac51
    case 14 => 0x7e7c0b41db6094645c4b04778bd6c095 case _ => 0x39563b9cfbdf890070e2faadb6a036cc
  }

  function Back4(h: byte): bv128 {
    match h
    case 0 => 0xf7775ad8ea5272b91fc774e2531b02dd case 1 => 0xd5caad39632d9ab461451001a03a8e4b
    case 2 => 0x570490957e670d786db194cc92b0bb4d case 3 => 0x2bc0263eb66bfe0c79f02ef251151ad1
    case 4 => 0x4ee349cf838f41a69c2908e9db0b8a59 case 5 => 0xb5df062ad6c9f13bc1cdcb56e81eaa76
    case 6 => 0xe5861cd2e7da328546936f4264b812b3 case 7 => 0xf818c29b9633a2ebb79768a9e105e000
    case 8 => 0x7cd45e8c5830802823f60aecc6ce141d case 9 => 0x871675ace6efb25bab0e6ac5f334474c
    case 10 => 0xfdd05d6550dc3c3fba99a417defbc888 case 11 => 0x608d0798a573fca87fa7317ad75f9148
    case 12 => 0xee355562d3ae7b9e3637afbeff8bd919 case 13 => 0x27704082a109edbc81bf03e489113df5
    case 14 => 0xa36ef9bdc3666c2c9d9f4a7d242f8422 case _ => 0xc421136954430f5c3820faf44f712544
  }

  function Row5(h: byte): bv128 {
    match h
    case 0 => 0xa40ce9677c3f2a00ef8c391e61558fc6 case 1 => 0x234d943b0e29719773145cc7d034b118
    case 2 => 0x17fbcfeadf2ef7ba0dbfbc3045c39f08 case 3 => 0xb4d69a48118e139949ac5f8d3cbe365a
    case 4 => 0x32875d6c0ad4f4050fa591779e154764 case 5 => 0x244ce476deffe6d5f0afbb538372ee12
    case 6 => 0x04dc78a21681026a68f19b378a58f93e case 7 => 0xfd35031f7b7a90f3da826080d150b8e7
    case 8 => 0x56b7ae4ecc2f59cef5e19d84d2db2b93 case 9 => 0x063a92a79c07446bbdd8b6468bf2a374
    case 10 => 0xad88756979d7b0e22c6f26ca43cbfa96 case 11 => 0x19c07e228631cda66225423d5b01c157
    case 12 => 0xec1b1c95feab2120e8c8ebed1daac566 case 13 => 0x5edd980b85fc414fc26d4bb327a1f628
    case 14 => 0x5440104aa8c4e5b5c9f83370a95165d3 case _ => 0x6eb9897d092d5238b2637fd9a0e3e01a
  }

  function Back5(h: byte): bv128 {
    match h
    case 0 => 0x07bd6672604790952ff444d301281448 case 1 => 0xe2345f36194d64201fb0ffc1c2cc0b73
    case 2 => 0xc7c6b31050b9aadcdf15068ea8f52585 case 3 => 0x2bb540ea1d713e6bf70a91133cbb6f05
    case 4 => 0xe1d6baac962c9b4e3338e3da511183d7 case 5 => 0x7dedf65be00d80bf6d863fbc1a42d03a
    case 6 => 0x7a0cb8f94feecf0368a3679743d9f0a9 case 7 => 0xeb165d189fa2534b62a4757404f3b2fa
    case 8 => 0x7b65795c8bd4b441a1f26c9c093b350e case 9 => 0x764a928f12c3af17d237326a948a4c2e
    case 10 => 0xfcdd639e0049b793e4eccdc539a08259 case 11 => 0xa61ef8db30e79a817ef1275a2a983d29
    case 12 => 0xb1bed82de5ce0f1bc9e8abad84b68722 case 13 => 0x1c7c8cef455731a599fb788d61d15424
    case 14 => 0xfe89a7fd52e6567fc80223cac0cb5e08 case _ => 0x58699d774688de26e96eae21d570c455
  }

  function Row6(h: byte): bv128 {
    match h
    case 0 => 0x12228ee688c299dd5d49606c2df4858b case 1 => 0x67c65b1cb2db38f8bbd4c4ae2ab57680
    case 2 => 0xc943e4ccc30320056f8494ced9beb8b6 case 3 => 0x7d54f51302dffd860a93ee739b687abd
    case 4 => 0xff314592a0ad090f3d1dea0797da8d62 case 5 => 0x5653de910ebad851d24be15aa94e7015
    case 6 => 0x35b37536ace37fb11bf7f998d7ec7b64 case 7 => 0xd0d30111c11a3fcd482100f0742fa255
    case 8 => 0xed78fa81421737f3f6e8290b50903cfb case 9 => 0x16273b59a114968271419abf2b9d79e9
    case 10 => 0xa7cb8930caab8c0cef9e5f57d1695818 case 11 => 0x6d3a7c06c0c8f163a6a49f4d8a24bce0
    case 12 => 0xe732afd51f190826b43466b0952e7e5c case 13 => 0x0d28a3614cfcd66a7233aab710e5c546
    case 14 => 0x25044a442347f2b9fe3940521e4f77c7 case _ => 0x5eeba887dc3e8f9c832c65e26e6bcfa5
  }

  function Back6(h: byte): bv128 {
    match h
    case 0 => 0x7a723425e127b34bc646388ba7d05447 case 1 => 0xdc730033955f9085afc575681349ecc4
    case 2 => 0x267901e4bde0c791d18a1c9cf90ccd7d case 3 => 0xa341c1d9c960638616e9b1928e48f576
    case 4 => 0xea998421e342dfe57809e259d4bb5ded case 5 => 0x8c57eb51317f50abae935b12cf08f0aa
    case 6 => 0x0ad34fb76ffaca103dadd7fd0bb0fc28 case 7 => 0x5e98d83b7c621eee819e3e6eb230ce66
    case 8 => 0x1f8397f8290e37f304a2bc0fa64e02f6 case 9 => 0x8d5343392acc964c6b069a3cf79da9ba
    case 10 => 0x44947ed2b9ffb8a0f25cdaa564451bc2 case 11 => 0xcb671461c81d2fdb2ee75518be3f2d9b
    case 12 => 0xb47405241ade11efb520a4a123772bfe case 13 => 0x70ac587119c3d66c562c4d15f4075235
    case 14 => 0xbf5afb6522dd03c0899f4af16d803aa8 case _ => 0x7bb6e6870d328869176a828fd536e840
  }

  function Row7(h: byte): bv128 {
    match h
    case 0 => 0x72dd80b8333ddf2bacd006019a4e4cde case 1 => 0xf1e12094f9e68efd14f6aa8215ce2749
    case 2 => 0x6a968c1fb1d3e0a9c351a8eb23000485 case 3 => 0xae95d758837d25e376b2c6e70abc2f67
    case 4 => 0x73ad90db5b8af86221f06dcb84b41198 case 5 => 0xafb9ab56a3b0bb50f38b5d057e30f491
    case 6 => 0xb79e02ea9f075a77c5c299fe55a226d8 case 7 => 0x798fd2e4edff6e53640d45c70b3f6ca1
    case 8 => 0xc4320e7cf54809346659b61c1342dad9 case 9 => 0xbe3837ec9defbae9313e43472870c952
    case 10 => 0xb37a71a71e2c6919fb41a64a7b756fe8 case 11 => 0x22f2d1a42e3bfccdc00c8da5925e570f
    case 12 => 0x396036cfdc8863ee1678ca4f9c1dc12d case 13 => 0xbf1893404d9708a04b6bcc87fa24bd17
    case 14 => 0x863ce5123565f75f68293ae29b5c1044 case _ => 0x1bc8b546d56103d62a81741a54897fd4
  }

  function Back7(h: byte): bv128 {
    match h
    case 0 => 0x2d0b62f62e5b0a65d6863c7cb97982bf case 1 => 0xee4ee38c181cc8dfd1a7fbf08bcda423
    case 2 => 0x1248b02cdd366e1e9ce9f807a5cfb43e case 3 => 0x5d98810487e4c29291c0eab5e105997d
    case 4 => 0xd3a98d9aef7af39b851fabd80ed40dcb case 5 => 0x57299f77fc6c53be33896644ed5abde7
    case 6 => 0xc1f547c678e5883fe8a620d97e4a76ae case 7 => 0x9da20040faad3867c970a1ac83355cfe
    case 8 => 0x02f91b344c2fe0dbc5fd455922ba1671 case 9 => 0x425fbcd2133121d54f6a0ceccc946164
    case 10 => 0xd77f6d54b3bbaaa32a271a5208413050 case 11 => 0x552439a04df28a60035196563dde90d0
    case 12 => 0xb8ce692880683a7bf19eca4bdab71dc3 case 13 => 0x09b27225fff4f7326f8f8e43c4010f06
    case 14 => 0x2611eb3773e2153baf97632b9374c795 case _ => 0x4910b1585e8419e64614dca8b6176b75
  }

  function Row8(h: byte): bv128 {
    match h
    case 0 => 0x6ec3574684ed2983cba36a9dc87eac33 case 1 => 0x04f64b3fda6ca1d72aba9f7302233de5
    case 2 => 0xb4b7370f7c8ae84964a0aff54285f232 case 3 => 0x7217adde7fcf98f395f0f722651ec210
    case 4 => 0x2858f90e1caa7ab0137869f4213b51b5 case 5 => 0x4a817694dbd32b807b11c66fd94119d5
    case 6 => 0x407d06c431b8e1a5ca59e3e0639c145c case 7 => 0xff032fbdc7275fe7b2564d35082c478f
    case 8 => 0x5ebc25e90cfdefb1fbdf05f853899754 case 9 => 0xd1e201c0078b525aa2dc9ecc0044abd8
    case 10 => 0x7736bbd0a6bee43ceacd910ae6304e74 case 11 => 0xd2626d3e908ef1d63a48790d88700b39
    case 12 => 0x1bec685dc19ab31deb75c599186b1520 case 13 => 0x6038129b0967558cb9a98243a8ee932d
    case 14 => 0xfe925baed41a66a4b661502efadd4c24 case _ => 0x4fce964526a7fcc934bf861f168d8771
  }

  function Back8(h: byte): bv128 {
    match h
    case 0 => 0x9c921c71108a62947cd4abbe84bb4323 case 1 => 0x3f59d2486ecefc31cc5ee5c044c73dfb
    case 2 => 0xcf4c3b1def82f475400618567ddfeb72 case 3 => 0xad642f0ff87ba122d1bfb84da71eb313
    case 4 => 0x605d2cdb9df3037eb9275012ee7aaef0 case 5 => 0xea4e968c8fd67902416997e26fc38076
    case 6 => 0xd0e9b16c283ce6d5c24a0acd15b2005b case 7 => 0xbdff301bafc952a049ba465824610d34
    case 8 => 0x5751da07042dfafebc8d2595d7fdb57f case 9 => 0xb4aae1de5338f28e36cbc5d36d0b9a1a
    case 10 => 0x29169809e767a4f5dcd9459e0e32e32a case 11 => 0x478778c6204fe82165d819a28173a5f9
    case 12 => 0x93c43e0163ca5a740cf768089ba9f135 case 13 => 0xa390b055e45fb7179f5c145499ed3389
    case 14 => 0x6b66916aa61fac772683a8c8c105dd86 case _ => 0x39b62e374b2b113a8b42ec88f685e070
  }

  function Row9(h: byte): bv128 {
    match h
    case 0 => 0x660081792ec56fe11eb47dff19d0cd8d case 1 => 0x2ca29324fd4bd834d10fca68b1e0ba44
    case 2 => 0x43f99591c3316c1117329cb816beeffa case 3 => 0x040828ea39e954ac7162f2d9361b569e
    case 4 => 0xf599c2d3c1462683ee1a9a274df777d2 case 5 => 0x74aff1903863d6c40901fe58e884bb73
    case 6 => 0x3a4f5dc03f5c75022161478688db13cf case 7 => 0x6a40496b8f573b18fc9fa0928e690d59
    case 8 => 0xe4f6973722de20d776e5c8c765075e3c case 9 => 0x35dc6e5acef4984541b5514c7e062342
    case 10 => 0x520eb9bc3dcc2add6d852955a48ab230 case 11 => 0x128c0b948b0ca87fe77803a5894a3ee3
    case 12 => 0xbf10f32fb3727a15fb05b75fe2505370 case 13 => 0xc9ed5ba90ab07c67f8142b1d801caba7
    case 14 => 0xb6d5ec64da9648dfa1aea3bdaad42d25 case _ => 0x9da6cbeb1fe682f0337b9b60adc64e87
  }

  function Back9(h: byte): bv128 {
    match h
    case 0 => 0x015967ba30c99d8d3158d4b2b57ea119 case 1 => 0xc127b06ed9c72c28770c493ddddb08f4
    case 2 => 0x8668849e13ef464b32aaa6da10ee04c3 case 3 => 0xaf2529f817903c83543460768fa4be64
    case 4 => 0x71989f201f97456ae672bd159b4cfe61 case 5 => 0xcd9aa0ce36ab3e755b7f93d265628ecb
    case 6 => 0xfb693955e38c00d71b7d707326a89206 case 7 => 0xcf38c55f5066884eb903c6f9d60a9cb7
    case 8 => 0xdc02f6475da96bff6cbcadb4b10f7c74 case 9 => 0x53237b12b322e58296414afa2af03f79
    case 10 => 0x7ae811eaacbbf1dfb6d3ecde37fce951 case 11 => 0xd51caec40999e0ca2ba21e5ea3eb2dc0
    case 12 => 0x634442245705fd8b8ad01af2a50e946f case 13 => 0x0d184f43ede15687163be46d91a785e7
    case 14 => 0x1d07ccbf8089f5b85c3533f3e2d1482e case _ => 0xf7523ac29540814dd8212fc878145a0b
  }

  function High(b: byte): byte { b >> 4 }

  function Low(b: byte): (k: byte)
    ensures k < 16
  {
    b & 15
  }

  /** Entry `k` of a piece; the first entry is the highest byte. */
  function Cut(piece: bv128, k: byte): byte
    requires k < 16
  {
    ((piece >> ((15 - k) << 3)) & 0xff) as byte
  }

  function Piece(r: nat, h: byte): bv128 {
    match r
    case 0 => Row0(h) case 1 => Row1(h) case 2 => Row2(h) case 3 => Row3(h) case 4 => Row4(h)
    case 5 => Row5(h) case 6 => Row6(h) case 7 => Row7(h) case 8 => Row8(h) case _ => Row9(h)
  }

  function BackPiece(r: nat, h: byte): bv128 {
    match r
    case 0 => Back0(h) case 1 => Back1(h) case 2 => Back2(h) case 3 => Back3(h) case 4 => Back4(h)
    case 5 => Back5(h) case 6 => Back6(h) case 7 => Back7(h) case 8 => Back8(h) case _ => Back9(h)
  }

  function Entry(r: nat, x: byte): byte { Cut(Piece(r, High(x)), Low(x)) }

  function PlaceOf(r: nat, b: byte): byte { Cut(BackPiece(r, High(b)), Low(b)) }

  lemma Row0A(x: byte) requires x < 0x40 ensures var b := Cut(Row0(High(x)), Low(x)); Cut(Back0(High(b)), Low(b)) == x {}
  lemma Row0B(x: byte) requires 0x40 <= x < 0x80 ensures var b := Cut(Row0(High(x)), Low(x)); Cut(Back0(High(b)), Low(b)) == x {}
  lemma Row0C(x: byte) requires 0x80 <= x < 0xc0 ensures var b := Cut(Row0(High(x)), Low(x)); Cut(Back0(High(b)), Low(b)) == x {}
  lemma Row0D(x: byte) requires 0xc0 <= x ensures var b := Cut(Row0(High(x)), Low(x)); Cut(Back0(High(b)), Low(b)) == x {}
  lemma Row1A(x: byte) requires x < 0x40 ensures var b := Cut(Row1(High(x)), Low(x)); Cut(Back1(High(b)), Low(b)) == x {}
  lemma Row1B(x: byte) requires 0x40 <= x < 0x80 ensures var b := Cut(Row1(High(x)), Low(x)); Cut(Back1(High(b)), Low(b)) == x {}
  lemma Row1C(x: byte) requires 0x80 <= x < 0xc0 ensures var b := Cut(Row1(High(x)), Low(x)); Cut(Back1(High(b)), Low(b)) == x {}
  lemma Row1D(x: byte) requires 0xc0 <= x ensures var b := Cut(Row1(High(x)), Low(x)); Cut(Back1(High(b)), Low(b)) == x {}
  lemma Row2A(x: byte) requires x < 0x40 ensures var b := Cut(Row2(High(x)), Low(x)); Cut(Back2(High(b)), Low(b)) == x {}
  lemma Row2B(x: byte) requires 0x40 <= x < 0x80 ensures var b := Cut(Row2(High(x)), Low(x)); Cut(Back2(High(b)), Low(b)) == x {}
  lemma Row2C(x: byte) requires 0x80 <= x < 0xc0 ensures var b := Cut(Row2(High(x)), Low(x)); Cut(Back2(High(b)), Low(b)) == x {}
  lemma Row2D(x: byte) requires 0xc0 <= x ensures var b := Cut(Row2(High(x)), Low(x)); Cut(Back2(High(b)), Low(b)) == x {}
  lemma Row3A(x: byte) requires x < 0x40 ensures var b := Cut(Row3(High(x)), Low(x)); Cut(Back3(High(b)), Low(b)) == x {}
  lemma Row3B(x: byte) requires 0x40 <= x < 0x80 ensures var b := Cut(Row3(High(x)), Low(x)); Cut(Back3(High(b)), Low(b)) == x {}
  lemma Row3C(x: byte) requires 0x80 <= x < 0xc0 ensures var b := Cut(Row3(High(x)), Low(x)); Cut(Back3(High(b)), Low(b)) == x {}
  lemma Row3D(x: byte) requires 0xc0 <= x ensures var b := Cut(Row3(High(x)), Low(x)); Cut(Back3(High(b)), Low(b)) == x {}
  lemma Row4A(x: byte) requires x < 0x40 ensures var b := Cut(Row4(High(x)), Low(x)); Cut(Back4(High(b)), Low(b)) == x {}
  lemma Row4B(x: byte) requires 0x40 <= x < 0x80 ensures var b := Cut(Row4(High(x)), Low(x)); Cut(Back4(High(b)), Low(b)) == x {}
  lemma Row4C(x: byte) requires 0x80 <= x < 0xc0 ensures var b := Cut(Row4(High(x)), Low(x)); Cut(Back4(High(b)), Low(b)) == x {}
  lemma Row4D(x: byte) requires 0xc0 <= x ensures var b := Cut(Row4(High(x)), Low(x)); Cut(Back4(High(b)), Low(b)) == x {}
  lemma Row5A(x: byte) requires x < 0x40 ensures var b := Cut(Row5(High(x)), Low(x)); Cut(Back5(High(b)), Low(b)) == x {}
  lemma Row5B(x: byte) requires 0x40 <= x < 0x80 ensures var b := Cut(Row5(High(x)), Low(x)); Cut(Back5(High(b)), Low(b)) == x {}
  lemma Row5C(x: byte) requires 0x80 <= x < 0xc0 ensures var b := Cut(Row5(High(x)), Low(x)); Cut(Back5(High(b)), Low(b)) == x {}
  lemma Row5D(x: byte) requires 0xc0 <= x ensures var b := Cut(Row5(High(x)), Low(x)); Cut(Back5(High(b)), Low(b)) == x {}
  lemma Row6A(x: byte) requires x < 0x40 ensures var b := Cut(Row6(High(x)), Low(x)); Cut(Back6(High(b)), Low(b)) == x {}
  lemma Row6B(x: byte) requires 0x40 <= x < 0x80 ensures var b := Cut(Row6(High(x)), Low(x)); Cut(Back6(High(b)), Low(b)) == x {}
  lemma Row6C(x: byte) requires 0x80 <= x < 0xc0 ensures var b := Cut(Row6(High(x)), Low(x)); Cut(Back6(High(b)), Low(b)) == x {}
  lemma Row6D(x: byte) requires 0xc0 <= x ensures var b := Cut(Row6(High(x)), Low(x)); Cut(Back6(High(b)), Low(b)) == x {}
  lemma Row7A(x: byte) requires x < 0x40 ensures var b := Cut(Row7(High(x)), Low(x)); Cut(Back7(High(b)), Low(b)) == x {}
  lemma Row7B(x: byte) requires 0x40 <= x < 0x80 ensures var b := Cut(Row7(High(x)), Low(x)); Cut(Back7(High(b)), Low(b)) == x {}
  lemma Row7C(x: byte) requires 0x80 <= x < 0xc0 ensures var b := Cut(Row7(High(x)), Low(x)); Cut(Back7(High(b)), Low(b)) == x {}
  lemma Row7D(x: byte) requires 0xc0 <= x ensures var b := Cut(Row7(High(x)), Low(x)); Cut(Back7(High(b)), Low(b)) == x {}
  lemma Row8A(x: byte) requires x < 0x40 ensures var b := Cut(Row8(High(x)), Low(x)); Cut(Back8(High(b)), Low(b)) == x {}
  lemma Row8B(x: byte) requires 0x40 <= x < 0x80 ensures var b := Cut(Row8(High(x)), Low(x)); Cut(Back8(High(b)), Low(b)) == x {}
  lemma Row8C(x: byte) requires 0x80 <= x < 0xc0 ensures var b := Cut(Row8(High(x)), Low(x)); Cut(Back8(High(b)), Low(b)) == x {}
  lemma Row8D(x: byte) requires 0xc0 <= x ensures var b := Cut(Row8(High(x)), Low(x)); Cut(Back8(High(b)), Low(b)) == x {}
  lemma Row9A(x: byte) requires x < 0x40 ensures var b := Cut(Row9(High(x)), Low(x)); Cut(Back9(High(b)), Low(b)) == x {}
  lemma Row9B(x: byte) requires 0x40 <= x < 0x80 ensures var b := Cut(Row9(High(x)), Low(x)); Cut(Back9(High(b)), Low(b)) == x {}
  lemma Row9C(x: byte) requires 0x80 <= x < 0xc0 ensures var b := Cut(Row9(High(x)), Low(x)); Cut(Back9(High(b)), Low(b)) == x {}
  lemma Row9D(x: byte) requires 0xc0 <= x ensures var b := Cut(Row9(High(x)), Low(x)); Cut(Back9(High(b)), Low(b)) == x {}

  lemma EntryIsFound(r: nat, x: byte)
    requires r < ROWS
    ensures PlaceOf(r, Entry(r, x)) == x
  {
    hide Cut, High, Low;
    hide Row0, Row1, Row2, Row3, Row4, Row5, Row6, Row7, Row8, Row9;
    hide Back0, Back1, Back2, Back3, Back4, Back5, Back6, Back7, Back8, Back9;
    match r
    case 0 => if x < 0x40 { Row0A(x); } else if x < 0x80 { Row0B(x); } else if x < 0xc0 { Row0C(x); } else { Row0D(x); }
    case 1 => if x < 0x40 { Row1A(x); } else if x < 0x80 { Row1B(x); } else if x < 0xc0 { Row1C(x); } else { Row1D(x); }
    case 2 => if x < 0x40 { Row2A(x); } else if x < 0x80 { Row2B(x); } else if x < 0xc0 { Row2C(x); } else { Row2D(x); }
    case 3 => if x < 0x40 { Row3A(x); } else if x < 0x80 { Row3B(x); } else if x < 0xc0 { Row3C(x); } else { Row3D(x); }
    case 4 => if x < 0x40 { Row4A(x); } else if x < 0x80 { Row4B(x); } else if x < 0xc0 { Row4C(x); } else { Row4D(x); }
    case 5 => if x < 0x40 { Row5A(x); } else if x < 0x80 { Row5B(x); } else if x < 0xc0 { Row5C(x); } else { Row5D(x); }
    case 6 => if x < 0x40 { Row6A(x); } else if x < 0x80 { Row6B(x); } else if x < 0xc0 { Row6C(x); } else { Row6D(x); }
    case 7 => if x < 0x40 { Row7A(x); } else if x < 0x80 { Row7B(x); } else if x < 0xc0 { Row7C(x); } else { Row7D(x); }
    case 8 => if x < 0x40 { Row8A(x); } else if x < 0x80 { Row8B(x); } else if x < 0xc0 { Row8C(x); } else { Row8D(x); }
    case _ => if x < 0x40 { Row9A(x); } else if x < 0x80 { Row9B(x); } else if x < 0xc0 { Row9C(x); } else { Row9D(x); }
  }

  // -------------------------------------------------------------------------------------------
  // Every message survives
  // -------------------------------------------------------------------------------------------

  function RowAt(r: nat): Row { seq(256, x requires 0 <= x < 256 => ByteValue(Entry(r, ByteOf(x)))) }

  const DICTIONARY: Dictionary := seq(ROWS, r requires 0 <= r < ROWS => RowAt(r))

  lemma RowIsInjective(r: nat)
    requires r < ROWS
    ensures Injective(RowAt(r))
  {
    hide Entry, PlaceOf, ByteOf, ByteValue;
    forall x, y | 0 <= x < y < 256
      ensures RowAt(r)[x] != RowAt(r)[y]
    {
      var a, b := ByteOf(x), ByteOf(y);
      EntryIsFound(r, a);
      EntryIsFound(r, b);
      ByteOfValue(Entry(r, a));
      ByteOfValue(Entry(r, b));
      ValueOfByte(x);
      ValueOfByte(y);
    }
  }

  /** Under the rows of the source decrypting restores every message, for all keys and random bytes. */
  lemma EveryMessageSurvives(key: u8, random: u8, input: seq<u8>)
    ensures RoundTrips(DICTIONARY, key, random, input)
  {
    forall r | 0 <= r < ROWS
      ensures Injective(DICTIONARY[r])
    {
      RowIsInjective(r);
    }
    MessageSurvives(DICTIONARY, key, random, input);
  }

  lemma SampleEntries()
    ensures Entry(9, 1) == 0x00 && Entry(0, 2) == 0xf7
    ensures 0x00 ^ 0x5a == 0x5a as byte && 0xf7 ^ 0x5a == 0xad as byte
  {
  }

  /** Two bytes under key 0x5a and random byte 9: row 9 is used first, then row 0. */
  lemma SampleMessage()
    ensures Encrypted(DICTIONARY, 0x5a, 9, [1, 2]) == [0x5a, 0xad, 9]
  {
    SampleEntries();
    SampleBytes();
    hide Entry, ByteOf, ByteValue;
    assert DICTIONARY[9][1] == 0x00 && DICTIONARY[0][2] == 0xf7;
  }

  lemma SampleBytes()
    ensures ByteOf(1) == 1 && ByteOf(2) == 2 && ByteOf(0x5a) == 0x5a && ByteOf(0x00) == 0x00 && ByteOf(0xf7) == 0xf7
    ensures ByteValue(0x00) == 0x00 && ByteValue(0xf7) == 0xf7 && ByteValue(0x5a) == 0x5a && ByteValue(0xad) == 0xad
  {
  }
}
