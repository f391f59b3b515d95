/** The seed data of `constants.ts`: the store's initial users, projects and
    swaps, and the fallback lists used when the server cannot be reached. */
module Constants {
  import opened Wrappers
  import opened Types

  const MockUsers: seq<User> := [
    User(1, "Alice Johnson", "alice@example.com", None,
      ["React", "Node.js", "UI/UX Design"],
      "Full-stack developer with a passion for creating beautiful and intuitive user interfaces.",
      "https://picsum.photos/seed/alice/200", true),
    User(2, "Bob Williams", "bob@example.com", None,
      ["Python", "Data Science", "Machine Learning"],
      "Data scientist focused on building predictive models and analyzing large datasets.",
      "https://picsum.photos/seed/bob/200", false),
    User(3, "Charlie Brown", "charlie@example.com", None,
      ["Graphic Design", "Illustration", "Branding"],
      "Creative graphic designer specializing in branding and digital illustration.",
      "https://picsum.photos/seed/charlie/200", true)
  ]

  const MockProjects: seq<Project> := [
    Project(1, "Eco-Friendly Marketplace App",
      "A mobile application to connect buyers and sellers of sustainable and eco-friendly products. We aim to build a community around conscious consumerism. We need a frontend developer to build the React Native app and a UI/UX designer to finalize the mockups.",
      ["React Native", "UI/UX Design", "Firebase"], 1, [1]),
    Project(2, "AI-Powered Personal Finance Advisor",
      "Developing an AI tool that provides personalized financial advice based on user spending habits. The core of the project is a machine learning model that predicts future expenses and suggests savings strategies. We need data scientists and backend developers.",
      ["Python", "Machine Learning", "Flask"], 2, [2]),
    Project(3, "Branding for a New Tech Startup",
      "We are a new startup in the ed-tech space looking for a talented designer to create our complete brand identity. This includes a logo, color palette, typography, and marketing materials. Experience with modern and minimalist design is a plus.",
      ["Branding", "Logo Design", "Illustration"], 3, [3])
  ]

  const MockSkillSwaps: seq<SkillSwap> := [
    SkillSwap(1, 2, 1, "Python Basics", "React Fundamentals", Pending,
      "Hey Alice, I can teach you Python for data analysis if you could help me get started with React for a personal project. Let me know!"),
    SkillSwap(2, 1, 3, "Intro to Web Development", "Logo Design Principles", Accepted,
      "Hi Charlie, I love your design work! I can give you a crash course on HTML/CSS/JS if you can teach me some logo design basics.")
  ]

  /** The seed users have ids 1, 2, 3 and pairwise different e-mails. */
  lemma SeedUsersDistinctEmails()
    ensures forall i :: 0 <= i < |MockUsers| ==> MockUsers[i].id == i + 1
    ensures forall i, j ::
              0 <= i < |MockUsers| && 0 <= j < |MockUsers| && MockUsers[i].email == MockUsers[j].email ==> i == j
  {
    assert MockUsers[0].email[0] == 'a' && MockUsers[1].email[0] == 'b' && MockUsers[2].email[0] == 'c';
  }

  /** Every seed project lists its creator among its members. */
  lemma SeedCreatorsAreMembers()
    ensures forall i :: 0 <= i < |MockProjects| ==> MockProjects[i].creatorId in MockProjects[i].members
  {
  }

  /** The seed swaps have ids 1 and 2 and are never self-swaps. */
  lemma SeedSwapsWellFormed()
    ensures |MockSkillSwaps| == 2 && MockSkillSwaps[0].id == 1 && MockSkillSwaps[1].id == 2
    ensures forall i :: 0 <= i < |MockSkillSwaps| ==> MockSkillSwaps[i].fromUserId != MockSkillSwaps[i].toUserId
  {
  }
}
